/**
 * The health records the application persists: daily assessments, fatigue
 * questionnaires and exercise sessions. An optional JavaScript property is an
 * `Option`; a property that is present is `Some`.
 */
module Records {
  import opened Wrappers

  /** The five morning ratings (sliders, 1 to 10) and the readiness score derived from them. */
  datatype Morning = Morning(
    sleepQuality: int,
    energyWaking: int,
    mentalClarity: int,
    physicalReadiness: int,
    motivation: int,
    exerciseReadinessScore: int)

  datatype PreExercise = PreExercise(time: string, lastMeal: int, hydration: int, baselineRPE: int)

  /** One reading taken during exercise. */
  datatype Interval = Interval(time: string, rpe: int, talkTest: bool, symptoms: seq<string>)

  datatype PostExercise = PostExercise(immediateRPE: int, recovery30min: int, recovery2hr: int, satisfaction: int)

  /** The pre/during/post log of one exercise session. */
  datatype SessionLog = SessionLog(preExercise: PreExercise, duringExercise: seq<Interval>, postExercise: PostExercise)

  /** Medical readings; every property may be absent. */
  datatype Medical = Medical(
    hemoglobin: Option<real>,
    hematocrit: Option<real>,
    bloodPressureSys: Option<real>,
    bloodPressureDia: Option<real>,
    date: Option<string>)

  /** One day's record, keyed by its ISO date. */
  datatype DailyAssessment = DailyAssessment(
    date: string,
    morningAssessment: Option<Morning>,
    exerciseSession: Option<SessionLog>,
    dailyNotes: Option<string>,
    symptoms: Option<seq<string>>,
    medicalData: Option<Medical>)

  datatype ScaleType = FSS | FacitF

  /**
   * One questionnaire submission. `totalScore` is a JavaScript number; `None`
   * stands for `NaN` (the FSS average of no scores).
   */
  datatype FatigueScale = FatigueScale(
    id: string,
    date: string,
    scaleType: ScaleType,
    scores: seq<int>,
    totalScore: Option<real>,
    interpretation: string)

  datatype ExerciseSession = ExerciseSession(id: string, date: string, exercise: string, duration: int, session: SessionLog)

  /** A value stored under a record key of the remote store. */
  datatype Record =
    | AssessmentRecord(assessment: DailyAssessment)
    | ScaleRecord(scale: FatigueScale)
    | SessionRecord(session: ExerciseSession)
  {
    function Date(): string {
      match this
      case AssessmentRecord(a) => a.date
      case ScaleRecord(s) => s.date
      case SessionRecord(e) => e.date
    }
  }

  /** A date with no morning, session, notes, symptoms or readings: `{ date }`. */
  function EmptyAssessment(date: string): DailyAssessment {
    DailyAssessment(date, None, None, None, None, None)
  }

  /**
   * The time value `new Date(d).getTime()` orders dates by, modelled as the
   * number formed by the date's decimal digits: for well-formed `YYYY-MM-DD`
   * dates it orders them as the clock does.
   */
  function DateValue(d: string): nat {
    if d == [] then 0
    else if '0' <= d[|d| - 1] <= '9' then DateValue(d[..|d| - 1]) * 10 + (d[|d| - 1] as int - '0' as int)
    else DateValue(d[..|d| - 1])
  }

  /** The sort key of a record: its date. */
  function RecordRank(r: Record): int { DateValue(r.Date()) }

  function AssessmentRank(a: DailyAssessment): int { DateValue(a.date) }

  function ScaleRank(s: FatigueScale): int { DateValue(s.date) }

  /** The index entry a record is filed under: an assessment's date, a scale's or session's id. */
  function ItemOf(rec: Record): string {
    match rec
    case AssessmentRecord(a) => a.date
    case ScaleRecord(s) => s.id
    case SessionRecord(e) => e.id
  }

  /** The three lists a migration or an export carries. */
  datatype HealthData = HealthData(assessments: seq<DailyAssessment>, fatigueScales: seq<FatigueScale>, exerciseSessions: seq<ExerciseSession>)

  function AssessmentRecords(xs: seq<DailyAssessment>): (r: seq<Record>)
    ensures |r| == |xs|
    ensures forall i :: 0 <= i < |xs| ==> r[i] == AssessmentRecord(xs[i])
    ensures forall i :: 0 <= i < |xs| ==> ItemOf(r[i]) == xs[i].date && r[i].Date() == xs[i].date
  {
    seq(|xs|, i requires 0 <= i < |xs| => AssessmentRecord(xs[i]))
  }

  function ScaleRecords(xs: seq<FatigueScale>): (r: seq<Record>)
    ensures |r| == |xs|
    ensures forall i :: 0 <= i < |xs| ==> r[i] == ScaleRecord(xs[i])
    ensures forall i :: 0 <= i < |xs| ==> ItemOf(r[i]) == xs[i].id && r[i].Date() == xs[i].date
  {
    seq(|xs|, i requires 0 <= i < |xs| => ScaleRecord(xs[i]))
  }

  function SessionRecords(xs: seq<ExerciseSession>): (r: seq<Record>)
    ensures |r| == |xs|
    ensures forall i :: 0 <= i < |xs| ==> r[i] == SessionRecord(xs[i])
    ensures forall i :: 0 <= i < |xs| ==> ItemOf(r[i]) == xs[i].id && r[i].Date() == xs[i].date
  {
    seq(|xs|, i requires 0 <= i < |xs| => SessionRecord(xs[i]))
  }

  /** The index entries of `recs`, in order. */
  function Items(recs: seq<Record>): (r: seq<string>)
    ensures |r| == |recs|
    ensures forall i :: 0 <= i < |recs| ==> r[i] == ItemOf(recs[i])
    ensures forall rec :: rec in recs ==> ItemOf(rec) in r
  {
    seq(|recs|, i requires 0 <= i < |recs| => ItemOf(recs[i]))
  }

  /** The items of a list are those of all but its last record, then the last one's. */
  lemma ItemsSnoc(recs: seq<Record>)
    requires recs != []
    ensures Items(recs) == Items(recs[..|recs| - 1]) + [ItemOf(recs[|recs| - 1])]
  {
    var n := |recs| - 1;
    assert Items(recs)[..n] == Items(recs[..n]);
  }
}
