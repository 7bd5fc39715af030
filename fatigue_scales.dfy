/**
 * The fatigue questionnaires page (`app/scales/page.tsx`): the Fatigue
 * Severity Scale (nine items, reported as their average) and FACIT-F
 * (thirteen items, two of them scored as given and the rest reversed), their
 * interpretation bands, and the page state that keeps one submission of
 * each kind per day and the ten most recent submissions.
 */
module FatigueScalesPage {
  import opened Wrappers
  import opened Seqs
  import opened Sorting
  import opened Records

  /** A questionnaire's result: its total (`None` for `NaN`) and its label. */
  datatype ScaleResult = ScaleResult(total: Option<real>, interpretation: string)

  const FssItems: nat := 9
  const FacitItems: nat := 13

  /** The `reverse` flags of the thirteen FACIT-F questions. */
  const FacitReverse: seq<bool> := [false, false, false, false, false, false, true, true, false, false, false, false, false]

  /** `sum / length` as a JavaScript number: `NaN` (`None`) for no scores. */
  function FssAverage(scores: seq<int>): (r: Option<real>)
    ensures r.None? <==> scores == []
    ensures r.Some? ==> r.value * |scores| as real == Sum(scores) as real
  {
    if |scores| == 0 then None
    else
      DivMul(Sum(scores) as real, |scores| as real);
      Some(Sum(scores) as real / |scores| as real)
  }

  /** The FSS bands on the average; `NaN` compares false everywhere and lands in the last band. */
  function FssInterpretation(average: Option<real>): (r: string)
    ensures r in ["Severe fatigue", "Significant fatigue", "Moderate fatigue", "Minimal fatigue"]
    ensures r == "Minimal fatigue" <==> average.None? || average.value < 3.5
  {
    if average.Some? && average.value >= 5.5 then "Severe fatigue"
    else if average.Some? && average.value >= 4.5 then "Significant fatigue"
    else if average.Some? && average.value >= 3.5 then "Moderate fatigue"
    else "Minimal fatigue"
  }

  /** `calculateFSS`: the reported "total" is the average. */
  function CalculateFss(scores: seq<int>): (r: ScaleResult)
    ensures r.total.None? <==> scores == []
    ensures scores != [] && (forall i :: 0 <= i < |scores| ==> 1 <= scores[i] <= 7) ==> 1.0 <= r.total.value <= 7.0
  {
    FssAverageRange(scores);
    ScaleResult(FssAverage(scores), FssInterpretation(FssAverage(scores)))
  }

  /** Answers on the 1..7 scale average to a value in `[1, 7]`. */
  lemma FssAverageRange(scores: seq<int>)
    ensures scores != [] && (forall i :: 0 <= i < |scores| ==> 1 <= scores[i] <= 7) ==>
              1.0 <= FssAverage(scores).value <= 7.0
  {
    if scores != [] && (forall i :: 0 <= i < |scores| ==> 1 <= scores[i] <= 7) {
      var n, total := |scores| as real, Sum(scores) as real;
      var a := FssAverage(scores).value;
      assert a * n == total;
      SumBounds(scores, 1, 7);
      assert 1.0 * n <= total <= 7.0 * n;
      AverageBetween(a, total, n, 1.0, 7.0);
    }
  }

  /** A value `a` with `a * n == s` and `lo * n <= s <= hi * n`, `n > 0`, lies in `[lo, hi]`. */
  lemma AverageBetween(a: real, s: real, n: real, lo: real, hi: real)
    requires n > 0.0 && a * n == s && lo * n <= s <= hi * n
    ensures lo <= a <= hi
  {
    assert (a - lo) * n == s - lo * n;
    assert (hi - a) * n == hi * n - s;
    SignOfProduct(a - lo, n);
    SignOfProduct(hi - a, n);
  }

  /** One FACIT-F item's contribution: a reverse-flagged item counts as given, any other as `4 - score`. */
  function FacitItemScore(i: nat, score: int): int
    requires i < FacitItems
  {
    if FacitReverse[i] then score else 4 - score
  }

  /** The FACIT-F total of the first `|scores|` items, summed front to back. */
  function FacitTotal(scores: seq<int>): (t: int)
    requires |scores| <= FacitItems
    ensures (forall i :: 0 <= i < |scores| ==> 0 <= scores[i] <= 4) ==> 0 <= t <= 4 * |scores|
  {
    if scores == [] then 0
    else FacitTotal(scores[..|scores| - 1]) + FacitItemScore(|scores| - 1, scores[|scores| - 1])
  }

  /** The FACIT-F bands: higher totals mean less fatigue. */
  function FacitInterpretation(total: int): string {
    if total >= 40 then "Minimal fatigue"
    else if total >= 30 then "Mild fatigue"
    else if total >= 20 then "Moderate fatigue"
    else "Severe fatigue"
  }

  /**
   * `calculateFACIT`: accumulates the item scores in question order. A
   * score past the thirteenth question has no flag to read, which the
   * source does not survive.
   */
  method CalculateFacit(scores: seq<int>) returns (total: int, interpretation: string)
    requires |scores| <= FacitItems
    ensures total == FacitTotal(scores)
    ensures interpretation == FacitInterpretation(total)
  {
    total := 0;
    var i := 0;
    while i < |scores|
      invariant 0 <= i <= |scores|
      invariant total == FacitTotal(scores[..i])
    {
      assert scores[..i + 1][..i] == scores[..i];
      total := total + FacitItemScore(i, scores[i]);
      i := i + 1;
    }
    assert scores[..i] == scores;
    interpretation := FacitInterpretation(total);
  }

  /** Today's submission of a type, if any, makes `submittedToday` true for it. */
  predicate SubmittedToday(scales: seq<FatigueScale>, today: string, t: ScaleType) {
    exists i :: 0 <= i < |scales| && scales[i].date == today && scales[i].scaleType == t
  }

  /** The position of the first scale of type `t`, or `|scales|` when there is none (`find`). */
  function FirstOfType(scales: seq<FatigueScale>, t: ScaleType): (k: nat)
    ensures k <= |scales|
    ensures k < |scales| ==> scales[k].scaleType == t
    ensures forall i :: 0 <= i < k ==> scales[i].scaleType != t
  {
    if scales == [] then 0
    else if scales[0].scaleType == t then 0
    else 1 + FirstOfType(scales[1..], t)
  }

  /** The page's state. */
  datatype PageState = PageState(
    fssScores: seq<int>,
    facitScores: seq<int>,
    recentScales: seq<FatigueScale>,
    submittedFss: bool,
    submittedFacit: bool)

  /** The ten most recent of the loaded scales. */
  function RecentOf(scales: seq<FatigueScale>): seq<FatigueScale> {
    Take(SortDesc(scales, ScaleRank), 10)
  }

  /**
   * Loading: the ten most recent scales, today's flags, and each
   * questionnaire's sliders set to its latest submission unless the flag
   * was already set before this load (the effect reads the flags it
   * started with).
   */
  function LoadSpec(p: PageState, scales: seq<FatigueScale>, today: string): PageState {
    var sorted := SortDesc(scales, ScaleRank);
    var kf := FirstOfType(sorted, FSS);
    var kc := FirstOfType(sorted, FacitF);
    PageState(
      if kf < |sorted| && !p.submittedFss then sorted[kf].scores else p.fssScores,
      if kc < |sorted| && !p.submittedFacit then sorted[kc].scores else p.facitScores,
      Take(sorted, 10),
      SubmittedToday(sorted, today, FSS),
      SubmittedToday(sorted, today, FacitF))
  }

  /** The recent list after a save: the new scale appended, then only the last ten kept. */
  function AppendRecent(recent: seq<FatigueScale>, scale: FatigueScale): seq<FatigueScale> {
    SliceFrom(recent + [scale], -10)
  }

  class ScalesPage {
    var fssScores: seq<int>
    var facitScores: seq<int>
    var recentScales: seq<FatigueScale>
    var submittedFss: bool
    var submittedFacit: bool

    function State(): PageState
      reads this
    {
      PageState(fssScores, facitScores, recentScales, submittedFss, submittedFacit)
    }

    /** Nine FSS sliders at 1, thirteen FACIT-F sliders at 0, nothing loaded or submitted. */
    constructor ()
      ensures State() == PageState(seq(FssItems, _ => 1), seq(FacitItems, _ => 0), [], false, false)
    {
      fssScores := seq(FssItems, _ => 1);
      facitScores := seq(FacitItems, _ => 0);
      recentScales := [];
      submittedFss := false;
      submittedFacit := false;
    }

    method LoadScales(scales: seq<FatigueScale>, today: string)
      modifies this
      ensures State() == LoadSpec(old(State()), scales, today)
    {
      var sorted := SortDesc(scales, ScaleRank);
      var wasFss, wasFacit := submittedFss, submittedFacit;
      recentScales := Take(sorted, 10);
      submittedFss := SubmittedToday(sorted, today, FSS);
      submittedFacit := SubmittedToday(sorted, today, FacitF);
      var kf := FirstOfType(sorted, FSS);
      if kf < |sorted| && !wasFss {
        fssScores := sorted[kf].scores;
      }
      var kc := FirstOfType(sorted, FacitF);
      if kc < |sorted| && !wasFacit {
        facitScores := sorted[kc].scores;
      }
    }

    /**
     * `saveFSS`: nothing when today's FSS is in; otherwise the scale handed
     * to the store, which the page then appends to its recent list.
     */
    method SaveFss(id: string, today: string) returns (saved: Option<FatigueScale>)
      modifies this
      ensures old(submittedFss) ==> saved.None? && State() == old(State())
      ensures !old(submittedFss) ==>
                var r := CalculateFss(old(fssScores));
                && saved == Some(FatigueScale(id, today, FSS, old(fssScores), r.total, r.interpretation))
                && State() == old(State()).(recentScales := AppendRecent(old(recentScales), saved.value), submittedFss := true)
    {
      if submittedFss {
        return None;
      }
      var r := CalculateFss(fssScores);
      var scale := FatigueScale(id, today, FSS, fssScores, r.total, r.interpretation);
      recentScales := AppendRecent(recentScales, scale);
      submittedFss := true;
      saved := Some(scale);
    }

    /** `saveFACIT`, with its total computed by `CalculateFacit`. */
    method SaveFacit(id: string, today: string) returns (saved: Option<FatigueScale>)
      requires |facitScores| <= FacitItems
      modifies this
      ensures old(submittedFacit) ==> saved.None? && State() == old(State())
      ensures !old(submittedFacit) ==>
                var total := FacitTotal(old(facitScores));
                && saved == Some(FatigueScale(id, today, FacitF, old(facitScores), Some(total as real), FacitInterpretation(total)))
                && State() == old(State()).(recentScales := AppendRecent(old(recentScales), saved.value), submittedFacit := true)
    {
      if submittedFacit {
        return None;
      }
      var total, interpretation := CalculateFacit(facitScores);
      var scale := FatigueScale(id, today, FacitF, facitScores, Some(total as real), interpretation);
      recentScales := AppendRecent(recentScales, scale);
      submittedFacit := true;
      saved := Some(scale);
    }
  }

  // ---------------------------------------------------------------------------
  // Properties

  /** Dividing by a positive number and multiplying back is the identity. */
  lemma DivMul(s: real, n: real)
    requires n > 0.0
    ensures (s / n) * n == s
  {
  }

  /** A product with a positive factor has the sign of the other factor. */
  lemma SignOfProduct(x: real, n: real)
    requires n > 0.0
    ensures x * n >= 0.0 <==> x >= 0.0
  {
    if x < 0.0 {
      assert x * n < 0.0 * n;
    }
  }

  /** When `a * n == s` with `n > 0`, comparing `2a` with `c` is comparing `2s` with `c * n`. */
  lemma Threshold(a: real, s: real, n: real, c: real)
    requires n > 0.0 && a * n == s
    ensures 2.0 * a >= c <==> 2.0 * s >= c * n
  {
    assert 2.0 * s - c * n == (2.0 * a - c) * n;
    SignOfProduct(2.0 * a - c, n);
  }

  /** An integer comparison of `2s` with `k * n` is the same comparison on reals. */
  lemma IntReal(s: int, n: int, k: int)
    ensures 2 * s >= k * n <==> 2.0 * (s as real) >= (k as real) * (n as real)
  {
  }

  /** The FSS "total" is the average: multiplied back by the item count it gives the sum. */
  lemma FssTotalIsAverage(scores: seq<int>)
    requires |scores| > 0
    ensures FssAverage(scores).Some?
    ensures FssAverage(scores).value * |scores| as real == Sum(scores) as real
  {
    var s, n := Sum(scores) as real, |scores| as real;
    DivMul(s, n);
  }

  /**
   * The FSS bands as integer tests: an average `a` with `a * n == s` is
   * banded by `2 * s` against `11`, `9` and `7` times `n`.
   */
  lemma FssBands(a: real, s: int, n: int)
    requires n > 0
    requires a * n as real == s as real
    ensures var band := FssInterpretation(Some(a));
      && (band == "Severe fatigue" <==> 2 * s >= 11 * n)
      && (band == "Significant fatigue" <==> 9 * n <= 2 * s < 11 * n)
      && (band == "Moderate fatigue" <==> 7 * n <= 2 * s < 9 * n)
      && (band == "Minimal fatigue" <==> 2 * s < 7 * n)
  {
    Threshold(a, s as real, n as real, 11.0);
    Threshold(a, s as real, n as real, 9.0);
    Threshold(a, s as real, n as real, 7.0);
    IntReal(s, n, 11);
    IntReal(s, n, 9);
    IntReal(s, n, 7);
    assert 2.0 * a >= 11.0 <==> a >= 5.5;
    assert 2.0 * a >= 9.0 <==> a >= 4.5;
    assert 2.0 * a >= 7.0 <==> a >= 3.5;
  }

  /** Only questions 6 and 7 (counting from 0) are scored as given. */
  lemma FacitReverseItemsAre6And7()
    ensures |FacitReverse| == FacitItems
    ensures forall i :: 0 <= i < FacitItems ==> (FacitReverse[i] <==> i == 6 || i == 7)
  {
  }

  /** With every score in 0..4, each item contributes 0..4, so the total lies in `[0, 4n]`; for thirteen items `[0, 52]`. */
  lemma {:induction false} FacitTotalRange(scores: seq<int>)
    requires |scores| <= FacitItems
    requires forall i :: 0 <= i < |scores| ==> 0 <= scores[i] <= 4
    ensures 0 <= FacitTotal(scores) <= 4 * |scores|
    ensures |scores| == FacitItems ==> 0 <= FacitTotal(scores) <= 52
  {
    if scores != [] {
      FacitTotalRange(scores[..|scores| - 1]);
    }
  }

  /** Changing one score changes the total by that item's contribution only. */
  lemma {:induction false} FacitTotalUpdate(scores: seq<int>, j: nat, v: int)
    requires |scores| <= FacitItems && j < |scores|
    ensures FacitTotal(scores[j := v]) == FacitTotal(scores) - FacitItemScore(j, scores[j]) + FacitItemScore(j, v)
  {
    var n := |scores|;
    if j < n - 1 {
      assert scores[j := v][..n - 1] == scores[..n - 1][j := v];
      FacitTotalUpdate(scores[..n - 1], j, v);
    } else {
      assert scores[j := v][..n - 1] == scores[..n - 1];
    }
  }

  /** Raising a non-reversed item's score never raises the total; raising a reversed one never lowers it. */
  lemma FacitMonotone(scores: seq<int>, j: nat, v: int)
    requires |scores| <= FacitItems && j < |scores|
    requires scores[j] <= v
    ensures !FacitReverse[j] ==> FacitTotal(scores[j := v]) <= FacitTotal(scores)
    ensures FacitReverse[j] ==> FacitTotal(scores[j := v]) >= FacitTotal(scores)
  {
    FacitTotalUpdate(scores, j, v);
  }

  /** The initial sliders: thirteen zeros give FACIT-F 44 (minimal fatigue), nine ones give FSS average 1 (minimal fatigue). */
  lemma InitialScores()
    ensures FacitTotal(seq(FacitItems, _ => 0)) == 44
    ensures FacitInterpretation(44) == "Minimal fatigue"
    ensures CalculateFss(seq(FssItems, _ => 1)) == ScaleResult(Some(1.0), "Minimal fatigue")
  {
    InitialFacitTotal();
    InitialFssResult();
  }

  /** Thirteen zeros: eleven reversed items give 4 each, the two others 0. */
  lemma InitialFacitTotal()
    ensures FacitTotal(seq(FacitItems, _ => 0)) == 44
  {
    var z: seq<int> := seq(FacitItems, _ => 0);
    var i := 0;
    while i < FacitItems
      invariant 0 <= i <= FacitItems
      invariant FacitTotal(z[..i]) == (if i <= 6 then 4 * i else if i <= 8 then 24 else 24 + 4 * (i - 8))
    {
      assert z[..i + 1][..i] == z[..i];
      i := i + 1;
    }
    assert z[..FacitItems] == z;
  }

  /** Nine ones average to 1. */
  lemma InitialFssResult()
    ensures CalculateFss(seq(FssItems, _ => 1)) == ScaleResult(Some(1.0), "Minimal fatigue")
  {
    var ones: seq<int> := seq(FssItems, _ => 1);
    SumBounds(ones, 1, 1);
    assert Sum(ones) == 9;
  }

  /** The flags after a load say exactly whether a scale of that type is dated today. */
  lemma LoadedFlags(p: PageState, scales: seq<FatigueScale>, today: string)
    ensures LoadSpec(p, scales, today).submittedFss <==> exists s :: s in scales && s.date == today && s.scaleType == FSS
    ensures LoadSpec(p, scales, today).submittedFacit <==> exists s :: s in scales && s.date == today && s.scaleType == FacitF
  {
    var sorted := SortDesc(scales, ScaleRank);
    assert multiset(sorted) == multiset(scales);
    forall s | s in scales ensures s in sorted {
      assert s in multiset(scales);
    }
    forall s | s in sorted ensures s in scales {
      assert s in multiset(sorted);
    }
  }

  /** The loaded recent list is the newest ten, newest first. */
  lemma LoadedRecentIsNewestTen(p: PageState, scales: seq<FatigueScale>, today: string)
    ensures var r := LoadSpec(p, scales, today).recentScales;
      && |r| == Min(10, |scales|)
      && SortedDesc(r, ScaleRank)
      && (forall i, s :: 0 <= i < |r| && s in scales && s !in r ==> ScaleRank(s) <= ScaleRank(r[i]))
  {
    var sorted := SortDesc(scales, ScaleRank);
    PrefixOutranksRest(scales, sorted, ScaleRank, Min(10, |scales|));
  }

  /** After a save the recent list ends with the new scale and holds at most ten. */
  lemma AppendRecentKeepsTen(recent: seq<FatigueScale>, scale: FatigueScale)
    ensures var r := AppendRecent(recent, scale);
      && |r| == Min(10, |recent| + 1)
      && r[|r| - 1] == scale
      && r[..|r| - 1] == recent[|recent| + 1 - |r|..]
  {
    SliceFromNegative(recent + [scale], 10);
  }
}
