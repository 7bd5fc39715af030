/**
 * The dashboard (`app/page.tsx`): a week of recent assessments, the
 * rounded averages and exercise count over it, the readiness colour and
 * the condition under which today's status card is shown.
 *
 * The list the dashboard receives is the one `getRecentAssessments`
 * answers: at most 30 assessments, newest first. The page keeps its
 * `slice(-7)`, which on a newest-first list keeps the OLDEST seven;
 * `WeeklyAsWritten` models that and `Weekly` the evidently intended
 * newest seven. `CardStatsAsWritten` is the statistics card over the
 * former, `CardStats` the card over the latter.
 */
module Dashboard {
  import opened Wrappers
  import opened Seqs
  import opened Sorting
  import opened Records
  import Reports
  import DailyPage

  /** `assessments.slice(-7)`, as the page writes it. */
  function WeeklyAsWritten(recent: seq<DailyAssessment>): (w: seq<DailyAssessment>)
    ensures |w| == Min(7, |recent|)
    ensures w == recent[|recent| - |w|..]
  {
    Reports.LastN(recent, 7)
  }

  /** The seven newest entries of a newest-first list: `slice(0, 7)`. */
  function Weekly(recent: seq<DailyAssessment>): (w: seq<DailyAssessment>)
    ensures |w| == Min(7, |recent|)
    ensures w == recent[..|w|]
  {
    Take(recent, 7)
  }

  /**
   * On a newest-first list of more than seven days whose newest day is
   * strictly newer than the seventh-oldest, the page's week leaves out the
   * newest day.
   */
  lemma WeeklyAsWrittenMissesNewest(recent: seq<DailyAssessment>)
    requires SortedDesc(recent, AssessmentRank)
    requires |recent| > 7 && AssessmentRank(recent[0]) > AssessmentRank(recent[|recent| - 7])
    ensures recent[0] !in WeeklyAsWritten(recent)
    ensures recent[0] in Weekly(recent)
  {
    var w := WeeklyAsWritten(recent);
    forall i | 0 <= i < |w|
      ensures AssessmentRank(w[i]) <= AssessmentRank(recent[|recent| - 7])
    {
      assert w[i] == recent[|recent| - 7 + i];
    }
  }

  /** Eight consecutive days, newest first: the page's week starts one day late. */
  lemma WeeklyCounterexample()
    ensures var recent := [EmptyAssessment("8"), EmptyAssessment("7"), EmptyAssessment("6"), EmptyAssessment("5"),
                           EmptyAssessment("4"), EmptyAssessment("3"), EmptyAssessment("2"), EmptyAssessment("1")];
            EmptyAssessment("8") !in WeeklyAsWritten(recent)
            && WeeklyAsWritten(recent) == recent[1..]
            && Weekly(recent) == recent[..7]
  {
    var recent := [EmptyAssessment("8"), EmptyAssessment("7"), EmptyAssessment("6"), EmptyAssessment("5"),
                   EmptyAssessment("4"), EmptyAssessment("3"), EmptyAssessment("2"), EmptyAssessment("1")];
    assert WeeklyAsWritten(recent) == recent[1..];
    assert forall i :: 1 <= i < |recent| ==> recent[i].date != "8";
  }

  /**
   * On a newest-first list the corrected week holds the newest days: no
   * day left out is newer than a day kept.
   */
  lemma WeeklyIsNewest(recent: seq<DailyAssessment>)
    requires SortedDesc(recent, AssessmentRank)
    ensures var w := Weekly(recent);
            |w| == Min(7, |recent|)
            && (forall i :: 0 <= i < |w| ==> w[i] == recent[i])
            && (forall i, j :: 0 <= i < |w| <= j < |recent| ==> AssessmentRank(w[i]) >= AssessmentRank(recent[j]))
  {
    var w := Weekly(recent);
    forall i, j | 0 <= i < |w| <= j < |recent|
      ensures AssessmentRank(w[i]) >= AssessmentRank(recent[j])
    {
      assert w[i] == recent[i];
    }
  }

  /** The four figures of the statistics card. */
  datatype Stats = Stats(avgReadiness: int, avgEnergyTenths: int, totalExercise: nat, avgSleepTenths: int)

  /** `stats` over a week: rounded means (energy and sleep to one decimal) and the session count. */
  function StatsOf(week: seq<DailyAssessment>): (s: Stats)
    ensures s.totalExercise <= |week|
    ensures week == [] ==> s == Stats(0, 0, 0, 0)
  {
    Stats(Reports.Average(week, Reports.Readiness),
          Reports.AverageTenths(week, Reports.Energy),
          Reports.SessionCount(week),
          Reports.AverageTenths(week, Reports.Sleep))
  }

  /** With readiness scores in `[0, 50]` the average is too, and the count reaches the week's length exactly when every day has a session. */
  lemma StatsBounds(week: seq<DailyAssessment>)
    requires forall i :: 0 <= i < |week| ==> 0 <= Reports.Readiness(week[i]) <= 50
    ensures 0 <= StatsOf(week).avgReadiness <= 50
    ensures StatsOf(week).totalExercise == |week| <==> forall i :: 0 <= i < |week| ==> week[i].exerciseSession.Some?
  {
    Reports.AverageReadinessRange(week);
  }

  /**
   * The card as the page computes it, over its `slice(-7)`: at most seven
   * sessions, and all seven (or all days, when fewer) exactly when each of
   * the OLDEST days of the list has one.
   */
  function CardStatsAsWritten(recent: seq<DailyAssessment>): (s: Stats)
    ensures s.totalExercise <= 7
    ensures s.totalExercise == Min(7, |recent|) <==>
              forall i :: |recent| - Min(7, |recent|) <= i < |recent| ==> recent[i].exerciseSession.Some?
  {
    var w := WeeklyAsWritten(recent);
    assert forall i :: 0 <= i < |w| ==> w[i] == recent[|recent| - |w| + i];
    StatsOf(w)
  }

  /** The card over the newest seven days: all of them counted exactly when each has a session. */
  function CardStats(recent: seq<DailyAssessment>): (s: Stats)
    ensures s.totalExercise <= 7
    ensures s.totalExercise == Min(7, |recent|) <==>
              forall i :: 0 <= i < Min(7, |recent|) ==> recent[i].exerciseSession.Some?
  {
    StatsOf(Weekly(recent))
  }

  /** The dashboard's colour classes. */
  const Gray: string := "bg-gray-200"

  /** `getReadinessColor`: an absent or zero score is gray, otherwise the 40/30/20 bands. */
  function ReadinessColor(score: Option<int>): (c: string)
    ensures c in [Gray, "bg-green-500", "bg-yellow-500", "bg-orange-500", "bg-red-500"]
    ensures c == Gray <==> score.None? || score.value == 0
  {
    if score.None? || score.value == 0 then Gray
    else if score.value >= 40 then "bg-green-500"
    else if score.value >= 30 then "bg-yellow-500"
    else if score.value >= 20 then "bg-orange-500"
    else "bg-red-500"
  }

  /** The background colour of each band of the daily page. */
  function BandBackground(b: DailyPage.Band): string {
    match b
    case ReadyBand => "bg-green-500"
    case LightBand => "bg-yellow-500"
    case GentleBand => "bg-orange-500"
    case RestBand => "bg-red-500"
  }

  /** A present, non-zero score is coloured by the same band the daily page assigns it; only the others are gray. */
  lemma ColorFollowsDailyBands(score: Option<int>)
    ensures score.Some? && score.value != 0 ==> ReadinessColor(score) == BandBackground(DailyPage.BandOf(score.value))
    ensures ReadinessColor(score) == Gray <==> score.None? || score.value == 0
  {
  }

  /** `todayAssessment?.morningAssessment?.exerciseReadinessScore`. */
  function TodayScore(today: Option<DailyAssessment>): (s: Option<int>)
    ensures s.Some? <==> today.Some? && today.value.morningAssessment.Some?
    ensures s.Some? ==> s.value == today.value.morningAssessment.value.exerciseReadinessScore
  {
    if today.Some? && today.value.morningAssessment.Some? then Some(today.value.morningAssessment.value.exerciseReadinessScore)
    else None
  }

  /** The status card is shown when that score is truthy: present and not zero. */
  predicate TodayCardShown(today: Option<DailyAssessment>) {
    var s := TodayScore(today);
    s.Some? && s.value != 0
  }

  /** The card is shown exactly when today's score would not be coloured gray; a day without a morning never shows it. */
  lemma TodayCardIffColored(today: Option<DailyAssessment>)
    ensures TodayCardShown(today) <==> ReadinessColor(TodayScore(today)) != Gray
    ensures today.Some? && today.value.morningAssessment.None? ==> !TodayCardShown(today)
  {
  }
}
