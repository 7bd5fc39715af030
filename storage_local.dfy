/**
 * The browser-local store (`HealthStorage`): two JSON arrays in
 * `localStorage`, assessments upserted by date with a shallow merge and
 * fatigue scales upserted by id with a full replace. Outside a browser
 * (no `window`) the getters return nothing and the saves do nothing.
 */
module StorageLocal {
  import opened Wrappers
  import opened Records

  /** The index of the first element satisfying `p`, or -1 (`findIndex`). */
  function FindFirst<T>(s: seq<T>, p: T -> bool): (i: int)
    ensures -1 <= i < |s|
    ensures i >= 0 ==> p(s[i]) && forall j :: 0 <= j < i ==> !p(s[j])
    ensures i == -1 ==> forall j :: 0 <= j < |s| ==> !p(s[j])
  {
    if s == [] then -1
    else if p(s[0]) then 0
    else
      var k := FindFirst(s[1..], p);
      if k == -1 then -1 else k + 1
  }

  function DateIndex(s: seq<DailyAssessment>, date: string): int {
    FindFirst(s, (a: DailyAssessment) => a.date == date)
  }

  function IdIndex(s: seq<FatigueScale>, id: string): int {
    FindFirst(s, (x: FatigueScale) => x.id == id)
  }

  function Pick<T>(newer: Option<T>, older: Option<T>): Option<T> {
    if newer.Some? then newer else older
  }

  /** `{ ...older, ...newer }`: each field `newer` sets wins, the others are kept. */
  function Merge(older: DailyAssessment, newer: DailyAssessment): DailyAssessment {
    DailyAssessment(newer.date,
                    Pick(newer.morningAssessment, older.morningAssessment),
                    Pick(newer.exerciseSession, older.exerciseSession),
                    Pick(newer.dailyNotes, older.dailyNotes),
                    Pick(newer.symptoms, older.symptoms),
                    Pick(newer.medicalData, older.medicalData))
  }

  /** `r` carries every field `a` sets, with `a`'s value. */
  predicate AgreesOnSetFields(r: DailyAssessment, a: DailyAssessment) {
    r.date == a.date
    && (a.morningAssessment.Some? ==> r.morningAssessment == a.morningAssessment)
    && (a.exerciseSession.Some? ==> r.exerciseSession == a.exerciseSession)
    && (a.dailyNotes.Some? ==> r.dailyNotes == a.dailyNotes)
    && (a.symptoms.Some? ==> r.symptoms == a.symptoms)
    && (a.medicalData.Some? ==> r.medicalData == a.medicalData)
  }

  /** The list after `saveDailyAssessment(a)`: merged into the first entry of its date, or appended. */
  function UpsertByDate(s: seq<DailyAssessment>, a: DailyAssessment): seq<DailyAssessment> {
    var i := DateIndex(s, a.date);
    if i >= 0 then s[i := Merge(s[i], a)] else s + [a]
  }

  /** The list after `saveFatigueScale(x)`: the first entry of its id replaced whole, or `x` appended. */
  function UpsertById(s: seq<FatigueScale>, x: FatigueScale): seq<FatigueScale> {
    var i := IdIndex(s, x.id);
    if i >= 0 then s[i := x] else s + [x]
  }

  /** `find(a => a.date === date) || null`. */
  function FindByDate(s: seq<DailyAssessment>, date: string): Option<DailyAssessment> {
    var i := DateIndex(s, date);
    if i >= 0 then Some(s[i]) else None
  }

  predicate DatesUnique(s: seq<DailyAssessment>) {
    forall i, j :: 0 <= i < j < |s| ==> s[i].date != s[j].date
  }

  /** What `exportData` serialises. */
  datatype Export = Export(dailyAssessments: seq<DailyAssessment>, fatigueScales: seq<FatigueScale>, exportDate: string)

  /** `importData`'s argument after `JSON.parse`: not JSON, or an object whose lists may be absent. */
  datatype ImportInput = Unparseable | Parsed(dailyAssessments: Option<seq<DailyAssessment>>, fatigueScales: Option<seq<FatigueScale>>)

  class HealthStorage {
    /** The two `localStorage` entries; `None` when unset or empty. */
    var daily: Option<seq<DailyAssessment>>
    var scales: Option<seq<FatigueScale>>
    const inBrowser: bool

    constructor (inBrowser: bool, daily: Option<seq<DailyAssessment>>, scales: Option<seq<FatigueScale>>)
      ensures this.inBrowser == inBrowser && this.daily == daily && this.scales == scales
    {
      this.inBrowser := inBrowser;
      this.daily := daily;
      this.scales := scales;
    }

    function Assessments(): seq<DailyAssessment>
      reads this
    {
      if inBrowser then daily.GetOr([]) else []
    }

    function Scales(): seq<FatigueScale>
      reads this
    {
      if inBrowser then scales.GetOr([]) else []
    }

    method GetDailyAssessments() returns (r: seq<DailyAssessment>)
      ensures !inBrowser ==> r == []
      ensures inBrowser ==> r == daily.GetOr([])
    {
      if !inBrowser {
        return [];
      }
      r := if daily.Some? then daily.value else [];
    }

    method SaveDailyAssessment(a: DailyAssessment)
      modifies this
      ensures !inBrowser ==> daily == old(daily)
      ensures inBrowser ==> daily == Some(UpsertByDate(old(Assessments()), a))
      ensures scales == old(scales)
    {
      if !inBrowser {
        return;
      }
      var assessments := GetDailyAssessments();
      var i := DateIndex(assessments, a.date);
      if i >= 0 {
        assessments := assessments[i := Merge(assessments[i], a)];
      } else {
        assessments := assessments + [a];
      }
      daily := Some(assessments);
    }

    method GetDailyAssessment(date: string) returns (r: Option<DailyAssessment>)
      ensures r == FindByDate(Assessments(), date)
    {
      var assessments := GetDailyAssessments();
      r := FindByDate(assessments, date);
    }

    method GetFatigueScales() returns (r: seq<FatigueScale>)
      ensures !inBrowser ==> r == []
      ensures inBrowser ==> r == scales.GetOr([])
    {
      if !inBrowser {
        return [];
      }
      r := if scales.Some? then scales.value else [];
    }

    method SaveFatigueScale(x: FatigueScale)
      modifies this
      ensures !inBrowser ==> scales == old(scales)
      ensures inBrowser ==> scales == Some(UpsertById(old(Scales()), x))
      ensures daily == old(daily)
    {
      if !inBrowser {
        return;
      }
      var list := GetFatigueScales();
      var i := IdIndex(list, x.id);
      if i >= 0 {
        list := list[i := x];
      } else {
        list := list + [x];
      }
      scales := Some(list);
    }

    /** The clock's ISO time comes in as `now`. */
    method ExportData(now: string) returns (e: Export)
      ensures e == Export(Assessments(), Scales(), now)
    {
      var d := GetDailyAssessments();
      var f := GetFatigueScales();
      e := Export(d, f, now);
    }

    /**
     * Overwrites each list the input carries. Without a `window` the first
     * write throws, so a present list makes it return false having written nothing.
     */
    method ImportData(input: ImportInput) returns (ok: bool)
      modifies this
      ensures ok <==> input.Parsed? && (inBrowser || (input.dailyAssessments.None? && input.fatigueScales.None?))
      ensures daily == if ok && input.dailyAssessments.Some? then input.dailyAssessments else old(daily)
      ensures scales == if ok && input.fatigueScales.Some? then input.fatigueScales else old(scales)
    {
      if input.Unparseable? {
        return false;
      }
      if input.dailyAssessments.Some? {
        if !inBrowser {
          return false;
        }
        daily := input.dailyAssessments;
      }
      if input.fatigueScales.Some? {
        if !inBrowser {
          return false;
        }
        scales := input.fatigueScales;
      }
      return true;
    }
  }

  // ---------------------------------------------------------------------------
  // Properties

  /** Saving an existing date merges in place: same length and position, other entries untouched. */
  lemma SaveExistingDateMergesInPlace(s: seq<DailyAssessment>, a: DailyAssessment)
    requires DateIndex(s, a.date) >= 0
    ensures var i := DateIndex(s, a.date);
            var r := UpsertByDate(s, a);
            |r| == |s| && r[i] == Merge(s[i], a) && AgreesOnSetFields(r[i], a)
            && (forall j :: 0 <= j < |s| && j != i ==> r[j] == s[j])
  {
  }

  /** The merge keeps each field the new record leaves unset. */
  lemma MergeKeepsUnsetFields(older: DailyAssessment, newer: DailyAssessment)
    ensures var r := Merge(older, newer);
            AgreesOnSetFields(r, newer)
            && (newer.morningAssessment.None? ==> r.morningAssessment == older.morningAssessment)
            && (newer.exerciseSession.None? ==> r.exerciseSession == older.exerciseSession)
            && (newer.dailyNotes.None? ==> r.dailyNotes == older.dailyNotes)
            && (newer.symptoms.None? ==> r.symptoms == older.symptoms)
            && (newer.medicalData.None? ==> r.medicalData == older.medicalData)
  {
  }

  /** Saving a new date appends it. */
  lemma SaveNewDateAppends(s: seq<DailyAssessment>, a: DailyAssessment)
    requires forall j :: 0 <= j < |s| ==> s[j].date != a.date
    ensures UpsertByDate(s, a) == s + [a]
  {
    if DateIndex(s, a.date) >= 0 {
      assert s[DateIndex(s, a.date)].date == a.date;
    }
  }

  /** Saving keeps dates unique. */
  lemma SaveKeepsDatesUnique(s: seq<DailyAssessment>, a: DailyAssessment)
    requires DatesUnique(s)
    ensures DatesUnique(UpsertByDate(s, a))
  {
    var i := DateIndex(s, a.date);
    var r := UpsertByDate(s, a);
    if i >= 0 {
      forall j, k | 0 <= j < k < |r| ensures r[j].date != r[k].date {
        assert r[j].date == s[j].date && r[k].date == s[k].date;
      }
    } else {
      forall j, k | 0 <= j < k < |r| ensures r[j].date != r[k].date {
        if k == |s| {
          assert r[k] == a && r[j] == s[j];
        }
      }
    }
  }

  /** After `saveDailyAssessment(a)`, `getDailyAssessment(a.date)` returns a record agreeing with `a` on every field `a` sets. */
  lemma SaveThenGet(s: seq<DailyAssessment>, a: DailyAssessment)
    ensures FindByDate(UpsertByDate(s, a), a.date).Some?
    ensures AgreesOnSetFields(FindByDate(UpsertByDate(s, a), a.date).value, a)
  {
    var i := DateIndex(s, a.date);
    var r := UpsertByDate(s, a);
    var k := DateIndex(r, a.date);
    if i >= 0 {
      assert r[i].date == a.date;
      assert k == i by {
        assert forall j :: 0 <= j < i ==> r[j] == s[j];
      }
    } else {
      assert r[|s|] == a;
      assert k == |s| by {
        assert forall j :: 0 <= j < |s| ==> r[j] == s[j];
      }
    }
  }

  /** A scale save replaces the entry of its id whole, or appends; every other entry is unchanged. */
  lemma ScaleSaveReplacesOrAppends(s: seq<FatigueScale>, x: FatigueScale)
    ensures var i := IdIndex(s, x.id);
            var r := UpsertById(s, x);
            (i >= 0 ==> |r| == |s| && r[i] == x && forall j :: 0 <= j < |s| && j != i ==> r[j] == s[j])
            && (i < 0 ==> r == s + [x] && forall j :: 0 <= j < |s| ==> s[j].id != x.id)
  {
  }
}
