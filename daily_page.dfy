/**
 * The daily tracking page (`app/daily/page.tsx`): each edit builds a new
 * assessment from the current one. The morning readiness score is kept
 * equal to the sum of the five morning ratings, symptoms are ticked on and
 * off, medical readings are set one at a time, and a score is described by
 * a colour and a text that share their thresholds.
 */
module DailyPage {
  import opened Wrappers
  import opened Seqs
  import opened Records

  /** The five rated morning fields. */
  datatype MorningField = SleepQuality | EnergyWaking | MentalClarity | PhysicalReadiness | Motivation

  /** The four numeric medical fields the page edits. */
  datatype MedicalField = Hemoglobin | Hematocrit | BloodPressureSys | BloodPressureDia

  /** The readiness bands, from best to worst. */
  datatype Band = ReadyBand | LightBand | GentleBand | RestBand

  function Rating(m: Morning, f: MorningField): int {
    match f
    case SleepQuality => m.sleepQuality
    case EnergyWaking => m.energyWaking
    case MentalClarity => m.mentalClarity
    case PhysicalReadiness => m.physicalReadiness
    case Motivation => m.motivation
  }

  /** The sum of the five ratings. */
  function ReadinessSum(m: Morning): int {
    m.sleepQuality + m.energyWaking + m.mentalClarity + m.physicalReadiness + m.motivation
  }

  /** The page's invariant on the morning part: the score is the ratings' sum. */
  predicate ScoreIsSum(m: Morning) {
    m.exerciseReadinessScore == ReadinessSum(m)
  }

  /** The page's starting assessment for `today`: five ratings of 5 and score 25, no notes, no symptoms, zero readings. */
  function InitialAssessment(today: string): (a: DailyAssessment)
    ensures a.date == today && a.morningAssessment.Some? && ScoreIsSum(a.morningAssessment.value)
    ensures a.exerciseSession.None? && a.symptoms == Some([])
  {
    DailyAssessment(today, Some(Morning(5, 5, 5, 5, 5, 25)), None, Some(""), Some([]),
                    Some(Medical(Some(0.0), Some(0.0), Some(0.0), Some(0.0), Some(today))))
  }

  /**
   * `updateMorningAssessment`: the field takes the value and the score is
   * recomputed as the sum; everything else is kept.
   */
  function UpdateMorning(a: DailyAssessment, f: MorningField, v: int): (r: DailyAssessment)
    requires a.morningAssessment.Some?
    ensures r.morningAssessment.Some? && ScoreIsSum(r.morningAssessment.value)
    ensures Rating(r.morningAssessment.value, f) == v
    ensures forall g :: g != f ==> Rating(r.morningAssessment.value, g) == Rating(a.morningAssessment.value, g)
    ensures r == a.(morningAssessment := r.morningAssessment)
  {
    var m := a.morningAssessment.value;
    var m1 := match f
      case SleepQuality => m.(sleepQuality := v)
      case EnergyWaking => m.(energyWaking := v)
      case MentalClarity => m.(mentalClarity := v)
      case PhysicalReadiness => m.(physicalReadiness := v)
      case Motivation => m.(motivation := v);
    a.(morningAssessment := Some(m1.(exerciseReadinessScore := ReadinessSum(m1))))
  }

  /**
   * `updateSymptoms`: ticking appends the symptom (even when already
   * listed); unticking removes every occurrence and keeps the rest in order.
   */
  function UpdateSymptoms(a: DailyAssessment, symptom: string, checked: bool): (r: DailyAssessment)
    ensures r.symptoms.Some?
    ensures r == a.(symptoms := r.symptoms)
    ensures checked ==> r.symptoms.value == a.symptoms.GetOr([]) + [symptom]
    ensures !checked ==> symptom !in r.symptoms.value
    ensures !checked ==> forall s :: s != symptom ==> multiset(r.symptoms.value)[s] == multiset(a.symptoms.GetOr([]))[s]
  {
    var symptoms := a.symptoms.GetOr([]);
    if checked then a.(symptoms := Some(symptoms + [symptom]))
    else a.(symptoms := Some(RemoveAll(symptoms, symptom)))
  }

  function Reading(m: Medical, f: MedicalField): Option<real> {
    match f
    case Hemoglobin => m.hemoglobin
    case Hematocrit => m.hematocrit
    case BloodPressureSys => m.bloodPressureSys
    case BloodPressureDia => m.bloodPressureDia
  }

  /** `updateMedicalData`: only the named reading changes; absent medical data starts empty. */
  function UpdateMedical(a: DailyAssessment, f: MedicalField, v: real): (r: DailyAssessment)
    ensures r.medicalData.Some? && Reading(r.medicalData.value, f) == Some(v)
    ensures a.medicalData.Some? ==> forall g :: g != f ==> Reading(r.medicalData.value, g) == Reading(a.medicalData.value, g)
    ensures a.medicalData.Some? ==> r.medicalData.value.date == a.medicalData.value.date
    ensures r == a.(medicalData := r.medicalData)
  {
    var m := a.medicalData.GetOr(Medical(None, None, None, None, None));
    var m1 := match f
      case Hemoglobin => m.(hemoglobin := Some(v))
      case Hematocrit => m.(hematocrit := Some(v))
      case BloodPressureSys => m.(bloodPressureSys := Some(v))
      case BloodPressureDia => m.(bloodPressureDia := Some(v));
    a.(medicalData := Some(m1))
  }

  /** `getReadinessColor`. */
  function ReadinessColor(score: int): (c: string)
    ensures c == "text-green-600" <==> BandOf(score) == ReadyBand
    ensures c == "text-yellow-600" <==> BandOf(score) == LightBand
    ensures c == "text-orange-600" <==> BandOf(score) == GentleBand
    ensures c == "text-red-600" <==> BandOf(score) == RestBand
  {
    if score >= 40 then "text-green-600"
    else if score >= 30 then "text-yellow-600"
    else if score >= 20 then "text-orange-600"
    else "text-red-600"
  }

  /** `getReadinessText`. */
  function ReadinessText(score: int): (t: string)
    ensures t == "Good to go - Ready for exercise" <==> BandOf(score) == ReadyBand
    ensures t == "Rest recommended - Avoid exercise" <==> BandOf(score) == RestBand
  {
    if score >= 40 then "Good to go - Ready for exercise"
    else if score >= 30 then "Light exercise recommended"
    else if score >= 20 then "Rest or gentle activity only"
    else "Rest recommended - Avoid exercise"
  }

  /** The band of a score: `[40, ∞)`, `[30, 40)`, `[20, 30)` or below 20. */
  function BandOf(score: int): (b: Band)
    ensures b == ReadyBand <==> 40 <= score
    ensures b == RestBand <==> score < 20
    ensures b.LightBand? || b.GentleBand? ==> 20 <= score < 40
  {
    if score >= 40 then ReadyBand
    else if score >= 30 then LightBand
    else if score >= 20 then GentleBand
    else RestBand
  }

  function BandColor(b: Band): string {
    match b
    case ReadyBand => "text-green-600"
    case LightBand => "text-yellow-600"
    case GentleBand => "text-orange-600"
    case RestBand => "text-red-600"
  }

  function BandText(b: Band): string {
    match b
    case ReadyBand => "Good to go - Ready for exercise"
    case LightBand => "Light exercise recommended"
    case GentleBand => "Rest or gentle activity only"
    case RestBand => "Rest recommended - Avoid exercise"
  }

  // ---------------------------------------------------------------------------
  // Properties

  /** The starting assessment already satisfies the sum invariant. */
  lemma InitialScoreIsSum(today: string)
    ensures InitialAssessment(today).morningAssessment.Some?
    ensures ScoreIsSum(InitialAssessment(today).morningAssessment.value)
  {
  }

  /** Any run of rating edits from the starting assessment keeps the score equal to the sum. */
  lemma {:induction false} EditsKeepScoreIsSum(a: DailyAssessment, edits: seq<(MorningField, int)>)
    requires a.morningAssessment.Some? && ScoreIsSum(a.morningAssessment.value)
    ensures var r := ApplyEdits(a, edits); r.morningAssessment.Some? && ScoreIsSum(r.morningAssessment.value)
    decreases |edits|
  {
    if edits != [] {
      EditsKeepScoreIsSum(UpdateMorning(a, edits[0].0, edits[0].1), edits[1..]);
    }
  }

  /** A run of slider edits, applied in order. */
  function ApplyEdits(a: DailyAssessment, edits: seq<(MorningField, int)>): DailyAssessment
    requires a.morningAssessment.Some?
    decreases |edits|
  {
    if edits == [] then a
    else ApplyEdits(UpdateMorning(a, edits[0].0, edits[0].1), edits[1..])
  }

  /** With the five ratings in the slider range 1..10, the score lies in `[5, 50]`. */
  lemma ScoreRange(m: Morning)
    requires ScoreIsSum(m)
    requires forall f :: 1 <= Rating(m, f) <= 10
    ensures 5 <= m.exerciseReadinessScore <= 50
  {
    assert 1 <= Rating(m, SleepQuality) <= 10;
    assert 1 <= Rating(m, EnergyWaking) <= 10;
    assert 1 <= Rating(m, MentalClarity) <= 10;
    assert 1 <= Rating(m, PhysicalReadiness) <= 10;
    assert 1 <= Rating(m, Motivation) <= 10;
  }

  /** Ticking a symptom and then unticking it leaves none of it, and the other symptoms as they were. */
  lemma TickThenUntick(a: DailyAssessment, symptom: string)
    ensures var r := UpdateSymptoms(UpdateSymptoms(a, symptom, true), symptom, false);
      r.symptoms == Some(RemoveAll(a.symptoms.GetOr([]), symptom))
  {
    var t := UpdateSymptoms(a, symptom, true);
    assert t.symptoms.GetOr([]) == a.symptoms.GetOr([]) + [symptom];
    RemoveAllAppend(a.symptoms.GetOr([]), [symptom], symptom);
    assert [symptom][1..] == [];
    assert RemoveAll([symptom], symptom) == [];
    var x := a.symptoms.GetOr([]);
    assert RemoveAll(x + [symptom], symptom) == RemoveAll(x, symptom) + [];
    assert RemoveAll(x, symptom) + [] == RemoveAll(x, symptom);
    assert UpdateSymptoms(t, symptom, false).symptoms == Some(RemoveAll(t.symptoms.GetOr([]), symptom));
    assert UpdateSymptoms(t, symptom, false).symptoms == Some(RemoveAll(x, symptom));
  }

  /** The colour and the text of a score come from one band, so they always agree. */
  lemma ColorAndTextAgree(score: int)
    ensures ReadinessColor(score) == BandColor(BandOf(score))
    ensures ReadinessText(score) == BandText(BandOf(score))
    ensures BandOf(score) == ReadyBand <==> score >= 40
    ensures BandOf(score) == LightBand <==> 30 <= score < 40
    ensures BandOf(score) == GentleBand <==> 20 <= score < 30
    ensures BandOf(score) == RestBand <==> score < 20
  {
  }
}
