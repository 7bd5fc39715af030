/**
 * The analytics of the reports page (`app/reports/page.tsx`): the last 30
 * assessments, rounded averages over them, the number of days with an
 * exercise session, the latest questionnaires of each type and the
 * symptom tally with its five most frequent entries. The averages are
 * shared with the dashboard, which computes them the same way.
 */
module Reports {
  import opened Wrappers
  import opened Seqs
  import opened Sorting
  import opened Records

  // ---------------------------------------------------------------------------
  // Windows

  /** `slice(-n)` for a positive `n`: the last `min(n, |s|)` elements, in their order. */
  function LastN<T>(s: seq<T>, n: nat): (r: seq<T>)
    requires 1 <= n
    ensures |r| == Min(n, |s|)
    ensures r == s[|s| - |r|..]
  {
    SliceFromNegative(s, n);
    SliceFrom(s, -(n as int))
  }

  /** `dailyData.slice(-30)`. */
  function Last30(days: seq<DailyAssessment>): (r: seq<DailyAssessment>)
    ensures |r| == Min(30, |days|)
    ensures r == days[|days| - |r|..]
  {
    LastN(days, 30)
  }

  // ---------------------------------------------------------------------------
  // Rounded averages

  /** `day.morningAssessment?.exerciseReadinessScore || 0`. */
  function Readiness(d: DailyAssessment): int {
    if d.morningAssessment.Some? then d.morningAssessment.value.exerciseReadinessScore else 0
  }

  /** `day.morningAssessment?.energyWaking || 0`. */
  function Energy(d: DailyAssessment): int {
    if d.morningAssessment.Some? then d.morningAssessment.value.energyWaking else 0
  }

  /** `day.morningAssessment?.sleepQuality || 0`. */
  function Sleep(d: DailyAssessment): int {
    if d.morningAssessment.Some? then d.morningAssessment.value.sleepQuality else 0
  }

  /** `reduce((sum, day) => sum + f(day), 0)`. */
  function Total(days: seq<DailyAssessment>, f: DailyAssessment -> int): int {
    if days == [] then 0 else Total(days[..|days| - 1], f) + f(days[|days| - 1])
  }

  /** `Math.round(total / n)`, that is `floor(total / n + 1/2)`, in integers. */
  function RoundedMean(total: int, n: nat): int
    requires n > 0
  {
    (2 * total + n) / (2 * n)
  }

  /** `n > 0 ? Math.round(Σ f / n) : 0`. */
  function Average(days: seq<DailyAssessment>, f: DailyAssessment -> int): (r: int)
    ensures days == [] ==> r == 0
    ensures days != [] ==> |days| * (2 * r - 1) <= 2 * Total(days, f) < |days| * (2 * r + 1)
  {
    if |days| > 0 then
      RoundedMeanNearest(Total(days, f), |days|);
      RoundedMean(Total(days, f), |days|)
    else 0
  }

  /** `n > 0 ? Math.round(Σ f / n * 10) / 10 : 0`, counted in tenths. */
  function AverageTenths(days: seq<DailyAssessment>, f: DailyAssessment -> int): (r: int)
    ensures days == [] ==> r == 0
    ensures days != [] ==> |days| * (2 * r - 1) <= 20 * Total(days, f) < |days| * (2 * r + 1)
  {
    if |days| > 0 then
      RoundedMeanNearest(10 * Total(days, f), |days|);
      RoundedMean(10 * Total(days, f), |days|)
    else 0
  }

  /** The rounded mean is the nearest integer to `total / n`, halves rounding up. */
  lemma RoundedMeanNearest(total: int, n: nat)
    requires n > 0
    ensures var r := RoundedMean(total, n);
            n * (2 * r - 1) <= 2 * total < n * (2 * r + 1)
  {
    var q := (2 * total + n) / (2 * n);
    var m := (2 * total + n) % (2 * n);
    assert 2 * total + n == 2 * n * q + m && 0 <= m < 2 * n;
    assert n * (2 * q - 1) == 2 * n * q - n;
    assert n * (2 * q + 1) == 2 * n * q + n;
  }

  /** A positive factor keeps the sign. */
  lemma PositiveFactor(n: int, x: int)
    requires n > 0
    ensures n * x <= 0 ==> x <= 0
    ensures n * x < 0 ==> x < 0
  {
    if x > 0 {
      assert n * x == n * (x - 1) + n;
      PositiveFactor(n, x - 1);
    }
  }

  /** A total of values in `[lo, hi]` lies in `[n*lo, n*hi]`. */
  lemma {:induction false} TotalBounds(days: seq<DailyAssessment>, f: DailyAssessment -> int, lo: int, hi: int)
    requires forall i :: 0 <= i < |days| ==> lo <= f(days[i]) <= hi
    ensures |days| * lo <= Total(days, f) <= |days| * hi
  {
    if days != [] {
      TotalBounds(days[..|days| - 1], f, lo, hi);
    }
  }

  /** Rounding never leaves the range of the values averaged. */
  lemma MeanWithinBounds(total: int, n: nat, lo: int, hi: int)
    requires n > 0 && n * lo <= total <= n * hi
    ensures lo <= RoundedMean(total, n) <= hi
  {
    var r := RoundedMean(total, n);
    RoundedMeanNearest(total, n);
    assert n * (2 * r - 1 - 2 * hi) == n * (2 * r - 1) - 2 * (n * hi);
    PositiveFactor(n, 2 * r - 1 - 2 * hi);
    assert n * (2 * lo - 2 * r - 1) == 2 * (n * lo) - n * (2 * r + 1);
    PositiveFactor(n, 2 * lo - 2 * r - 1);
  }

  /** With every readiness score in `[0, 50]`, the average shown is in `[0, 50]`, and 0 for no days. */
  lemma AverageReadinessRange(days: seq<DailyAssessment>)
    requires forall i :: 0 <= i < |days| ==> 0 <= Readiness(days[i]) <= 50
    ensures 0 <= Average(days, Readiness) <= 50
    ensures days == [] ==> Average(days, Readiness) == 0
  {
    if |days| > 0 {
      TotalBounds(days, Readiness, 0, 50);
      MeanWithinBounds(Total(days, Readiness), |days|, 0, 50);
    }
  }

  /** The average of equal values is that value. */
  lemma {:induction false} AverageOfConstant(days: seq<DailyAssessment>, f: DailyAssessment -> int, v: int)
    requires |days| > 0
    requires forall i :: 0 <= i < |days| ==> f(days[i]) == v
    ensures Average(days, f) == v
  {
    TotalBounds(days, f, v, v);
    MeanWithinBounds(Total(days, f), |days|, v, v);
  }

  // ---------------------------------------------------------------------------
  // Exercise count

  /** `filter(day => day.exerciseSession).length`. */
  function SessionCount(days: seq<DailyAssessment>): (c: nat)
    ensures c <= |days|
    ensures c == 0 <==> forall i :: 0 <= i < |days| ==> days[i].exerciseSession.None?
    ensures c == |days| <==> forall i :: 0 <= i < |days| ==> days[i].exerciseSession.Some?
  {
    if days == [] then 0
    else
      var rest := days[..|days| - 1];
      assert forall i :: 0 <= i < |rest| ==> rest[i] == days[i];
      SessionCount(rest) + if days[|days| - 1].exerciseSession.Some? then 1 else 0
  }

  /** Counting splits over concatenation. */
  lemma {:induction false} SessionCountAppend(s: seq<DailyAssessment>, t: seq<DailyAssessment>)
    ensures SessionCount(s + t) == SessionCount(s) + SessionCount(t)
    decreases |t|
  {
    if t != [] {
      assert (s + t)[..|s + t| - 1] == s + t[..|t| - 1];
      SessionCountAppend(s, t[..|t| - 1]);
    } else {
      assert s + t == s;
    }
  }

  // ---------------------------------------------------------------------------
  // Recent questionnaires

  /** `fatigueScales.filter(s => s.type === t)`. */
  function OfType(scales: seq<FatigueScale>, t: ScaleType): (r: seq<FatigueScale>)
    ensures |r| <= |scales|
    ensures forall i :: 0 <= i < |r| ==> r[i].scaleType == t
    ensures forall x :: x in r <==> x in scales && x.scaleType == t
    ensures scales != [] && scales[|scales| - 1].scaleType == t ==> r != [] && r[|r| - 1] == scales[|scales| - 1]
  {
    if scales == [] then []
    else
      var rest := OfType(scales[..|scales| - 1], t);
      var last := scales[|scales| - 1];
      assert scales == scales[..|scales| - 1] + [last];
      if last.scaleType == t then rest + [last] else rest
  }

  /** Filtering keeps the stored order: the filter of a concatenation is the concatenation of the filters. */
  lemma {:induction false} OfTypeAppend(s: seq<FatigueScale>, u: seq<FatigueScale>, t: ScaleType)
    ensures OfType(s + u, t) == OfType(s, t) + OfType(u, t)
    decreases |u|
  {
    if u == [] {
      assert s + u == s;
    } else {
      var n := |u| - 1;
      assert (s + u)[..|s + u| - 1] == s + u[..n];
      assert (s + u)[|s + u| - 1] == u[n];
      OfTypeAppend(s, u[..n], t);
    }
  }

  /** Filtering twice by the same type changes nothing more. */
  lemma {:induction false} OfTypeIdempotent(scales: seq<FatigueScale>, t: ScaleType)
    ensures OfType(OfType(scales, t), t) == OfType(scales, t)
    decreases |scales|
  {
    if scales != [] {
      var n := |scales| - 1;
      var rest := OfType(scales[..n], t);
      OfTypeIdempotent(scales[..n], t);
      if scales[n].scaleType == t {
        OfTypeAppend(rest, [scales[n]], t);
        assert OfType([scales[n]], t) == OfType([], t) + [scales[n]];
      }
    }
  }

  /** `filter(...).slice(-5)`. */
  function RecentOfType(scales: seq<FatigueScale>, t: ScaleType): (r: seq<FatigueScale>)
    ensures |r| <= 5
    ensures forall i :: 0 <= i < |r| ==> r[i] in scales && r[i].scaleType == t
  {
    LastN(OfType(scales, t), 5)
  }

  /**
   * The recent list holds only questionnaires of that type, at most five,
   * and ends with the latest one stored.
   */
  lemma RecentOfTypeIsLatest(scales: seq<FatigueScale>, t: ScaleType)
    ensures var r := RecentOfType(scales, t);
            |r| == Min(5, |OfType(scales, t)|)
            && r == OfType(scales, t)[|OfType(scales, t)| - |r|..]
            && (forall i :: 0 <= i < |r| ==> r[i].scaleType == t)
            && (scales != [] && scales[|scales| - 1].scaleType == t ==> r[|r| - 1] == scales[|scales| - 1])
  {
    var o := OfType(scales, t);
    var r := RecentOfType(scales, t);
    assert r == o[|o| - |r|..];
    forall i | 0 <= i < |r|
      ensures r[i].scaleType == t
    {
      assert r[i] == o[|o| - |r| + i];
    }
    if scales != [] && scales[|scales| - 1].scaleType == t {
      assert r[|r| - 1] == o[|o| - 1];
    }
  }

  // ---------------------------------------------------------------------------
  // Symptom tally

  /** `flatMap(day => day.symptoms || [])`. */
  function AllSymptoms(days: seq<DailyAssessment>): (r: seq<string>)
    ensures forall x :: x in r <==> exists i :: 0 <= i < |days| && days[i].symptoms.Some? && x in days[i].symptoms.value
  {
    if days == [] then []
    else
      var rest := days[..|days| - 1];
      assert forall i :: 0 <= i < |rest| ==> rest[i] == days[i];
      AllSymptoms(rest) + days[|days| - 1].symptoms.GetOr([])
  }

  /** One entry of `Object.entries(acc)`: a symptom and its count. */
  type Entry = (string, nat)

  /** The position of `k` among the tally's keys, or `|acc|`. */
  function KeyIndex(acc: seq<Entry>, k: string): (i: nat)
    ensures i <= |acc|
    ensures i < |acc| ==> acc[i].0 == k
    ensures forall j :: 0 <= j < i ==> acc[j].0 != k
  {
    if acc == [] then 0
    else if acc[0].0 == k then 0
    else 1 + KeyIndex(acc[1..], k)
  }

  /** The count the tally holds for `k`: `acc[k] || 0`. */
  function CountOf(acc: seq<Entry>, k: string): nat {
    var i := KeyIndex(acc, k);
    if i < |acc| then acc[i].1 else 0
  }

  /** No key appears twice, as in an object. */
  predicate KeysDistinct(acc: seq<Entry>) {
    forall i, j :: 0 <= i < j < |acc| ==> acc[i].0 != acc[j].0
  }

  /**
   * `acc[symptom] = (acc[symptom] || 0) + 1`: an existing key is incremented
   * where it stands, a new one is added last (object keys keep insertion order).
   */
  function TallyAdd(acc: seq<Entry>, x: string): seq<Entry> {
    var i := KeyIndex(acc, x);
    if i < |acc| then acc[i := (x, acc[i].1 + 1)] else acc + [(x, 1)]
  }

  /** The `reduce` that builds the tally. */
  function Tally(xs: seq<string>): (r: seq<Entry>)
    ensures |r| <= |xs|
    ensures forall i :: 0 <= i < |r| ==> r[i].0 in xs
  {
    if xs == [] then [] else TallyAdd(Tally(xs[..|xs| - 1]), xs[|xs| - 1])
  }

  /** The sum of the tally's counts. */
  function CountSum(acc: seq<Entry>): int {
    if acc == [] then 0 else acc[0].1 + CountSum(acc[1..])
  }

  /** Adding one occurrence adds one to exactly its own key's count. */
  lemma TallyAddCounts(acc: seq<Entry>, x: string)
    requires KeysDistinct(acc)
    ensures KeysDistinct(TallyAdd(acc, x))
    ensures CountOf(TallyAdd(acc, x), x) == CountOf(acc, x) + 1
    ensures forall k :: k != x ==> CountOf(TallyAdd(acc, x), k) == CountOf(acc, k)
  {
    var r := TallyAdd(acc, x);
    var i := KeyIndex(acc, x);
    forall k | k != x
      ensures CountOf(r, k) == CountOf(acc, k)
    {
      var a := KeyIndex(acc, k);
      var b := KeyIndex(r, k);
      assert forall j :: 0 <= j < |acc| ==> r[j].0 == acc[j].0;
      if a < |acc| {
        assert b == a;
      }
    }
    assert forall j :: 0 <= j < |acc| ==> r[j].0 == acc[j].0;
    if i < |acc| {
      assert KeyIndex(r, x) == i;
    } else {
      assert r[|acc|].0 == x;
      assert KeyIndex(r, x) == |acc|;
    }
  }

  /** Adding one occurrence adds one to the sum of the counts. */
  lemma {:induction false} TallyAddSum(acc: seq<Entry>, x: string)
    ensures CountSum(TallyAdd(acc, x)) == CountSum(acc) + 1
  {
    var i := KeyIndex(acc, x);
    if i < |acc| {
      CountSumUpdate(acc, i, (x, acc[i].1 + 1));
    } else {
      CountSumAppend(acc, (x, 1));
    }
  }

  lemma {:induction false} CountSumUpdate(acc: seq<Entry>, i: nat, e: Entry)
    requires i < |acc|
    ensures CountSum(acc[i := e]) == CountSum(acc) - acc[i].1 + e.1
  {
    if i > 0 {
      assert acc[i := e][1..] == acc[1..][i - 1 := e];
      CountSumUpdate(acc[1..], i - 1, e);
    } else {
      assert acc[i := e][1..] == acc[1..];
    }
  }

  lemma {:induction false} CountSumAppend(acc: seq<Entry>, e: Entry)
    ensures CountSum(acc + [e]) == CountSum(acc) + e.1
  {
    if acc != [] {
      assert (acc + [e])[1..] == acc[1..] + [e];
      CountSumAppend(acc[1..], e);
    }
  }

  /**
   * The tally maps each symptom to its number of occurrences, has one entry
   * per distinct symptom, and its counts add up to the number of symptom
   * entries.
   */
  lemma {:induction false} TallyCountsOccurrences(xs: seq<string>)
    ensures KeysDistinct(Tally(xs))
    ensures forall k :: CountOf(Tally(xs), k) == multiset(xs)[k]
    ensures CountSum(Tally(xs)) == |xs|
  {
    if xs != [] {
      var init := xs[..|xs| - 1];
      var x := xs[|xs| - 1];
      TallyCountsOccurrences(init);
      TallyAddCounts(Tally(init), x);
      TallyAddSum(Tally(init), x);
      assert xs == init + [x];
      assert multiset(xs) == multiset(init) + multiset{x};
    }
  }

  /** The sort key of an entry: its count. */
  function Count(e: Entry): int { e.1 }

  /** `entries.sort(([,a], [,b]) => b - a).slice(0, 5)`. */
  function TopOf(tally: seq<Entry>): seq<Entry> {
    Take(SortDesc(tally, Count), 5)
  }

  /** `Object.entries(tally)` of the last 30 days' symptoms, five most frequent first. */
  function TopSymptoms(days: seq<DailyAssessment>): (r: seq<Entry>)
    ensures |r| <= 5
    ensures forall i, j :: 0 <= i < j < |r| ==> r[i].1 >= r[j].1
  {
    TopOfIsTop(Tally(AllSymptoms(Last30(days))));
    TopOf(Tally(AllSymptoms(Last30(days))))
  }

  /**
   * At most five entries, each from the tally, with non-increasing counts,
   * and no tally entry left out outranks one kept.
   */
  lemma TopOfIsTop(tally: seq<Entry>)
    ensures var top := TopOf(tally);
            |top| == Min(5, |tally|)
            && multiset(top) <= multiset(tally)
            && (forall i, j :: 0 <= i < j < |top| ==> top[i].1 >= top[j].1)
            && (forall e, i :: e in tally && e !in top && 0 <= i < |top| ==> top[i].1 >= e.1)
  {
    var sorted := SortDesc(tally, Count);
    var top := TopOf(tally);
    assert top == sorted[..|top|];
    PrefixOfSorted(sorted, |top|);
    forall e | e in tally
      ensures e in sorted
    {
      assert e in multiset(tally);
    }
  }

  /** A prefix of a list sorted by count is part of it, non-increasing, and outranks the rest. */
  lemma PrefixOfSorted(sorted: seq<Entry>, n: nat)
    requires SortedDesc(sorted, Count) && n <= |sorted|
    ensures multiset(sorted[..n]) <= multiset(sorted)
    ensures forall i, j :: 0 <= i < j < n ==> sorted[..n][i].1 >= sorted[..n][j].1
    ensures forall e, i :: e in sorted && e !in sorted[..n] && 0 <= i < n ==> sorted[..n][i].1 >= e.1
  {
    assert sorted == sorted[..n] + sorted[n..];
    PrefixOutranksRest(sorted, sorted, Count, n);
  }


}
