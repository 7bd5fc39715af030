/**
 * The earlier store over Vercel KV (`HealthStorageKV`). Record keys are not
 * scoped to a user (`assessment:<date>`, `fatigue:<id>`, `exercise:<id>`)
 * and each kind has one global index under `user:<listName>`, kept free of
 * duplicates by a read-check-append-write.
 */
module StorageKv {
  import opened Wrappers
  import opened Records
  import opened Seqs
  import opened Sorting

  /** A KV value: a record, an index array or a number (the health probe's timestamp). */
  datatype Json = Rec(rec: Record) | Keys(keys: seq<string>) | Num(n: int)

  type Store = map<string, Json>

  /** The key-value service, one namespace of JSON values. */
  class Kv {
    var store: Store

    constructor ()
      ensures store == map[]
    {
      store := map[];
    }

    method Set(key: string, value: Json)
      modifies this
      ensures store == old(store)[key := value]
    {
      store := store[key := value];
    }

    method Get(key: string) returns (r: Option<Json>)
      ensures key in store ==> r == Some(store[key])
      ensures key !in store ==> r == None
    {
      r := if key in store then Some(store[key]) else None;
    }
  }

  datatype KvKind = AssessmentKind | FatigueKind | ExerciseKind

  function RecordPrefix(kind: KvKind): string {
    match kind
    case AssessmentKind => "assessment:"
    case FatigueKind => "fatigue:"
    case ExerciseKind => "exercise:"
  }

  function ListName(kind: KvKind): string {
    match kind
    case AssessmentKind => "assessments"
    case FatigueKind => "fatigue_scales"
    case ExerciseKind => "exercise_sessions"
  }

  function SaveError(kind: KvKind): string {
    match kind
    case AssessmentKind => "Failed to save daily assessment"
    case FatigueKind => "Failed to save fatigue scale"
    case ExerciseKind => "Failed to save exercise session"
  }

  function RecordKey(kind: KvKind, item: string): string {
    RecordPrefix(kind) + item
  }

  function IndexKey(kind: KvKind): string {
    "user:" + ListName(kind)
  }

  /** `getUserList` on a store that answers: the array at the key, or `[]`. */
  function ListAt(m: Store, key: string): seq<string> {
    if key in m && m[key].Keys? then m[key].keys else []
  }

  /** The index of a kind. */
  function Index(m: Store, kind: KvKind): seq<string> {
    ListAt(m, IndexKey(kind))
  }

  predicate NoDuplicates(s: seq<string>) {
    forall i, j :: 0 <= i < j < |s| ==> s[i] != s[j]
  }

  /** Where a save throws: at the record write (rethrown), at the index read or at the index write (both swallowed). */
  datatype KvFault = KvOk | SetThrows | ListReadThrows | ListWriteThrows

  /**
   * `addToUserList`: a failed read counts as the empty list, the item is
   * appended only when absent, and a failed write leaves the store alone.
   */
  function AddToList(m: Store, key: string, item: string, readThrows: bool, writeThrows: bool): Store {
    var current := if readThrows then [] else ListAt(m, key);
    if item in current || writeThrows then m else m[key := Keys(current + [item])]
  }

  /** A save: the record write, then the index update. */
  function SaveSpec(m: Store, kind: KvKind, item: string, rec: Record, fault: KvFault): Store {
    if fault == SetThrows then m
    else AddToList(m[RecordKey(kind, item) := Rec(rec)], IndexKey(kind), item, fault == ListReadThrows, fault == ListWriteThrows)
  }

  function FaultAt(faults: seq<KvFault>, i: nat): KvFault {
    if i < |faults| then faults[i] else KvOk
  }

  /** Saves in order until one throws; the flag says whether all went through. */
  function SaveEachSpec(m: Store, kind: KvKind, recs: seq<Record>, faults: seq<KvFault>, offset: nat): (Store, bool)
    decreases |recs|
  {
    if recs == [] then (m, true)
    else if FaultAt(faults, offset) == SetThrows then (m, false)
    else SaveEachSpec(SaveSpec(m, kind, ItemOf(recs[0]), recs[0], FaultAt(faults, offset)), kind, recs[1..], faults, offset + 1)
  }

  /** The records the entries `items` name under `base`, in entry order, with misses dropped. */
  function Resolve(m: Store, base: string, items: seq<string>): seq<Record> {
    if items == [] then []
    else (if base + items[0] in m && m[base + items[0]].Rec? then [m[base + items[0]].rec] else []) + Resolve(m, base, items[1..])
  }

  /** `getRecentAssessments(limit)`: the last `limit` index entries, newest entry first, misses dropped. */
  function Recent(m: Store, limit: int): seq<Record> {
    Resolve(m, RecordPrefix(AssessmentKind), Reverse(SliceFrom(Index(m, AssessmentKind), -limit)))
  }

  /**
   * `getRecentAssessments(limit)` when the read of the `i`-th looked-at entry
   * throws exactly where `throws` flags `i`: the per-entry getter swallows the
   * failure, so that entry is dropped like a miss.
   */
  function RecentRead(m: Store, limit: int, throws: seq<bool>): seq<Record> {
    Resolve(m, RecordPrefix(AssessmentKind), Unflagged(Reverse(SliceFrom(Index(m, AssessmentKind), -limit)), throws))
  }

  /** `getFatigueScales`/`getExerciseSessions`: every resolved record, latest date first. */
  function Listed(m: Store, kind: KvKind): seq<Record> {
    SortDesc(Resolve(m, RecordPrefix(kind), Index(m, kind)), RecordRank)
  }

  /** How a batch of saves in a migration or import went. */
  datatype Outcome = Skipped | Done | Aborted

  /** A local-storage entry: missing or empty, not valid JSON, or parsed. */
  datatype Slot<T> = Missing | Unparseable | Parsed(items: seq<T>)

  function Count<T>(slot: Slot<T>): nat {
    if slot.Parsed? then |slot.items| else 0
  }

  datatype PhaseResult = PhaseResult(store: Store, outcome: Outcome)

  function Phase(m: Store, kind: KvKind, slot: Slot<Record>, faults: seq<KvFault>, offset: nat): PhaseResult {
    match slot
    case Missing => PhaseResult(m, Skipped)
    case Unparseable => PhaseResult(m, Aborted)
    case Parsed(recs) =>
      var r := SaveEachSpec(m, kind, recs, faults, offset);
      PhaseResult(r.0, if r.1 then Done else Aborted)
  }

  /** How a run of the three batches ended: the store, whether no batch aborted, and whether some batch ran. */
  datatype PhasesResult = PhasesResult(store: Store, completed: bool, anyDone: bool)

  /** Assessments, then scales, then sessions; an aborted batch stops the run. */
  function Phases(m: Store, a: Slot<Record>, s: Slot<Record>, e: Slot<Record>, faults: seq<KvFault>): PhasesResult {
    var r1 := Phase(m, AssessmentKind, a, faults, 0);
    if r1.outcome == Aborted then PhasesResult(r1.store, false, false)
    else
      var r2 := Phase(r1.store, FatigueKind, s, faults, Count(a));
      if r2.outcome == Aborted then PhasesResult(r2.store, false, false)
      else
        var r3 := Phase(r2.store, ExerciseKind, e, faults, Count(a) + Count(s));
        PhasesResult(r3.store, r3.outcome != Aborted, r1.outcome == Done || r2.outcome == Done || r3.outcome == Done)
  }

  function ImportSlot<T>(xs: Option<seq<T>>, f: seq<T> -> seq<Record>): Slot<Record> {
    if xs.Some? then Parsed(f(xs.value)) else Missing
  }

  /** Present lists are saved in order: assessments, scales, sessions; the first failing save aborts the rest. */
  function ImportSpec(m: Store, data: ImportData, faults: seq<KvFault>): PhasesResult {
    Phases(m, ImportSlot(data.assessments, AssessmentRecords), ImportSlot(data.fatigueScales, ScaleRecords),
           ImportSlot(data.exerciseSessions, SessionRecords), faults)
  }

  /** The import payload: each list is optional. */
  datatype ImportData = ImportData(assessments: Option<seq<DailyAssessment>>, fatigueScales: Option<seq<FatigueScale>>, exerciseSessions: Option<seq<ExerciseSession>>)

  /** A locally stored exercise session, which has no id yet. */
  datatype LegacySession = LegacySession(date: string, exercise: string, duration: int, session: SessionLog)

  /** The migrated sessions, each under the freshly generated id at its position. */
  function MigratedSessions(xs: seq<LegacySession>, freshIds: seq<string>): (r: seq<Record>)
    requires |freshIds| >= |xs|
    ensures |r| == |xs|
    ensures forall i :: 0 <= i < |xs| ==> ItemOf(r[i]) == freshIds[i]
  {
    seq(|xs|, i requires 0 <= i < |xs| => SessionRecord(ExerciseSession(freshIds[i], xs[i].date, xs[i].exercise, xs[i].duration, xs[i].session)))
  }

  function SessionSlot(e: Slot<LegacySession>, freshIds: seq<string>): Slot<Record>
    requires e.Parsed? ==> |freshIds| >= |e.items|
  {
    match e
    case Missing => Missing
    case Unparseable => Unparseable
    case Parsed(xs) => Parsed(MigratedSessions(xs, freshIds))
  }

  function AssessmentSlot(slot: Slot<DailyAssessment>): Slot<Record> {
    match slot
    case Missing => Missing
    case Unparseable => Unparseable
    case Parsed(xs) => Parsed(AssessmentRecords(xs))
  }

  function ScaleSlot(slot: Slot<FatigueScale>): Slot<Record> {
    match slot
    case Missing => Missing
    case Unparseable => Unparseable
    case Parsed(xs) => Parsed(ScaleRecords(xs))
  }

  /**
   * `migrateFromLocalStorage`: false outside a browser; otherwise each
   * present slot is saved in turn, a parse error or failing save makes it
   * return false, and it returns true when at least one slot was present.
   */
  function MigrateSpec(m: Store, inBrowser: bool, a: Slot<DailyAssessment>, s: Slot<FatigueScale>, e: Slot<LegacySession>,
                       freshIds: seq<string>, faults: seq<KvFault>): (Store, bool)
    requires e.Parsed? ==> |freshIds| >= |e.items|
  {
    if !inBrowser then (m, false)
    else
      var r := Phases(m, AssessmentSlot(a), ScaleSlot(s), SessionSlot(e, freshIds), faults);
      (r.store, r.completed && r.anyDone)
  }

  // ---------------------------------------------------------------------------
  // The store

  class HealthStorageKv {
    const kv: Kv

    constructor (kv: Kv)
      ensures this.kv == kv
    {
      this.kv := kv;
    }

    /** `getUserList`: the index array, or `[]` when the key is absent or the read throws. */
    method GetUserList(kind: KvKind, readThrows: bool) returns (items: seq<string>)
      ensures items == if readThrows then [] else Index(kv.store, kind)
    {
      if readThrows {
        return [];
      }
      var v := kv.Get(IndexKey(kind));
      items := if v.Some? && v.value.Keys? then v.value.keys else [];
    }

    method AddToUserList(kind: KvKind, item: string, readThrows: bool, writeThrows: bool)
      modifies kv
      ensures kv.store == AddToList(old(kv.store), IndexKey(kind), item, readThrows, writeThrows)
    {
      var current := GetUserList(kind, readThrows);
      if item !in current {
        current := current + [item];
        if !writeThrows {
          kv.Set(IndexKey(kind), Keys(current));
        }
      }
    }

    /** A save rethrows a failed record write as `Failed to save …`; index failures are swallowed. */
    method Save(kind: KvKind, item: string, rec: Record, fault: KvFault) returns (err: Option<string>)
      modifies kv
      ensures err == if fault == SetThrows then Some(SaveError(kind)) else None
      ensures kv.store == SaveSpec(old(kv.store), kind, item, rec, fault)
    {
      if fault == SetThrows {
        return Some(SaveError(kind));
      }
      kv.Set(RecordKey(kind, item), Rec(rec));
      AddToUserList(kind, item, fault == ListReadThrows, fault == ListWriteThrows);
      return None;
    }

    method SaveDailyAssessment(a: DailyAssessment, fault: KvFault) returns (err: Option<string>)
      modifies kv
      ensures err == if fault == SetThrows then Some("Failed to save daily assessment") else None
      ensures kv.store == SaveSpec(old(kv.store), AssessmentKind, a.date, AssessmentRecord(a), fault)
    {
      err := Save(AssessmentKind, a.date, AssessmentRecord(a), fault);
    }

    method SaveFatigueScale(s: FatigueScale, fault: KvFault) returns (err: Option<string>)
      modifies kv
      ensures err == if fault == SetThrows then Some("Failed to save fatigue scale") else None
      ensures kv.store == SaveSpec(old(kv.store), FatigueKind, s.id, ScaleRecord(s), fault)
    {
      err := Save(FatigueKind, s.id, ScaleRecord(s), fault);
    }

    method SaveExerciseSession(e: ExerciseSession, fault: KvFault) returns (err: Option<string>)
      modifies kv
      ensures err == if fault == SetThrows then Some("Failed to save exercise session") else None
      ensures kv.store == SaveSpec(old(kv.store), ExerciseKind, e.id, SessionRecord(e), fault)
    {
      err := Save(ExerciseKind, e.id, SessionRecord(e), fault);
    }

    /** The record at `assessment:<date>`, or `None` when absent or when the read throws. */
    method GetDailyAssessment(date: string, readThrows: bool) returns (r: Option<Record>)
      ensures r.Some? <==> !readThrows && RecordKey(AssessmentKind, date) in kv.store && kv.store[RecordKey(AssessmentKind, date)].Rec?
      ensures r.Some? ==> r.value == kv.store[RecordKey(AssessmentKind, date)].rec
    {
      if readThrows {
        return None;
      }
      var v := kv.Get(RecordKey(AssessmentKind, date));
      r := if v.Some? && v.value.Rec? then Some(v.value.rec) else None;
    }

    /**
     * Fetches the records `items` name under `base`, in order, skipping misses;
     * the first entry read that throws (flagged in `throws`) ends the loop with
     * nothing, as that exception leaves the listing's `try`.
     */
    method FetchEach(base: string, items: seq<string>, throws: seq<bool>) returns (r: Option<seq<Record>>)
      ensures r.None? <==> AnyFlagged(throws, |items|)
      ensures r.Some? ==> r.value == Resolve(kv.store, base, items)
    {
      var found := [];
      var i := 0;
      while i < |items|
        invariant 0 <= i <= |items|
        invariant !AnyFlagged(throws, i)
        invariant found == Resolve(kv.store, base, items[..i])
      {
        if Flagged(throws, i) {
          return None;
        }
        var v := kv.Get(base + items[i]);
        assert items[..i + 1] == items[..i] + [items[i]];
        ResolveAppend(kv.store, base, items[..i], [items[i]]);
        if v.Some? && v.value.Rec? {
          found := found + [v.value.rec];
        }
        i := i + 1;
      }
      assert items[..i] == items;
      return Some(found);
    }

    /** The default limit is 30. Each entry is read through `GetDailyAssessment`, so a throwing read drops one entry. */
    method GetRecentAssessments(limit: int, readThrows: bool, entryThrows: seq<bool>) returns (r: seq<Record>)
      ensures r == if readThrows then [] else RecentRead(kv.store, limit, entryThrows)
    {
      var dates := GetUserList(AssessmentKind, readThrows);
      var recentDates := Reverse(SliceFrom(dates, -limit));
      ghost var base := RecordPrefix(AssessmentKind);
      r := [];
      var i := 0;
      while i < |recentDates|
        invariant 0 <= i <= |recentDates|
        invariant r == Resolve(kv.store, base, Unflagged(recentDates[..i], entryThrows))
      {
        var a := GetDailyAssessment(recentDates[i], Flagged(entryThrows, i));
        ResolveUnflaggedStep(kv.store, base, recentDates, entryThrows, i);
        if a.Some? {
          r := r + [a.value];
        }
        i := i + 1;
      }
      assert recentDates[..i] == recentDates;
    }

    /** Any entry read that throws empties the whole listing. */
    method GetFatigueScales(readThrows: bool, entryThrows: seq<bool>) returns (r: seq<Record>)
      ensures r == if readThrows || AnyFlagged(entryThrows, |Index(kv.store, FatigueKind)|) then [] else Listed(kv.store, FatigueKind)
    {
      var ids := GetUserList(FatigueKind, readThrows);
      var found := FetchEach(RecordPrefix(FatigueKind), ids, entryThrows);
      r := if found.Some? then SortDesc(found.value, RecordRank) else [];
    }

    /** Any entry read that throws empties the whole listing. */
    method GetExerciseSessions(readThrows: bool, entryThrows: seq<bool>) returns (r: seq<Record>)
      ensures r == if readThrows || AnyFlagged(entryThrows, |Index(kv.store, ExerciseKind)|) then [] else Listed(kv.store, ExerciseKind)
    {
      var ids := GetUserList(ExerciseKind, readThrows);
      var found := FetchEach(RecordPrefix(ExerciseKind), ids, entryThrows);
      r := if found.Some? then SortDesc(found.value, RecordRank) else [];
    }

    /** Up to a year of assessments, and every scale and session. */
    method ExportAllData(readThrows: (bool, bool, bool), entryThrows: (seq<bool>, seq<bool>, seq<bool>)) returns (a: seq<Record>, s: seq<Record>, e: seq<Record>)
      ensures |a| <= 365
      ensures a == if readThrows.0 then [] else RecentRead(kv.store, 365, entryThrows.0)
      ensures s == if readThrows.1 || AnyFlagged(entryThrows.1, |Index(kv.store, FatigueKind)|) then [] else Listed(kv.store, FatigueKind)
      ensures e == if readThrows.2 || AnyFlagged(entryThrows.2, |Index(kv.store, ExerciseKind)|) then [] else Listed(kv.store, ExerciseKind)
    {
      a := GetRecentAssessments(365, readThrows.0, entryThrows.0);
      RecentReadAtMostLimit(kv.store, 365, entryThrows.0);
      s := GetFatigueScales(readThrows.1, entryThrows.1);
      e := GetExerciseSessions(readThrows.2, entryThrows.2);
    }

    /** Saves `recs` in order, stopping at the first save that throws. */
    method SaveEach(kind: KvKind, recs: seq<Record>, faults: seq<KvFault>, offset: nat) returns (ok: bool)
      modifies kv
      ensures (kv.store, ok) == SaveEachSpec(old(kv.store), kind, recs, faults, offset)
    {
      var i := 0;
      while i < |recs|
        invariant 0 <= i <= |recs|
        invariant SaveEachSpec(old(kv.store), kind, recs, faults, offset) == SaveEachSpec(kv.store, kind, recs[i..], faults, offset + i)
      {
        assert recs[i..][1..] == recs[i + 1..];
        var err := Save(kind, ItemOf(recs[i]), recs[i], FaultAt(faults, offset + i));
        if err.Some? {
          return false;
        }
        i := i + 1;
      }
      return true;
    }

    method RunPhase(kind: KvKind, slot: Slot<Record>, faults: seq<KvFault>, offset: nat) returns (o: Outcome)
      modifies kv
      ensures PhaseResult(kv.store, o) == Phase(old(kv.store), kind, slot, faults, offset)
    {
      match slot
      case Missing => o := Skipped;
      case Unparseable => o := Aborted;
      case Parsed(recs) =>
        var ok := SaveEach(kind, recs, faults, offset);
        o := if ok then Done else Aborted;
    }

    method RunPhases(a: Slot<Record>, s: Slot<Record>, e: Slot<Record>, faults: seq<KvFault>) returns (completed: bool, anyDone: bool)
      modifies kv
      ensures PhasesResult(kv.store, completed, anyDone) == Phases(old(kv.store), a, s, e, faults)
    {
      ghost var m0 := kv.store;
      completed, anyDone := false, false;
      var o1 := RunPhase(AssessmentKind, a, faults, 0);
      ghost var p1 := PhaseResult(kv.store, o1);
      if o1 != Aborted {
        var o2 := RunPhase(FatigueKind, s, faults, Count(a));
        ghost var p2 := PhaseResult(kv.store, o2);
        if o2 != Aborted {
          var o3 := RunPhase(ExerciseKind, e, faults, Count(a) + Count(s));
          completed := o3 != Aborted;
          anyDone := o1 == Done || o2 == Done || o3 == Done;
          PhasesRan(m0, a, s, e, faults, p1, p2, PhaseResult(kv.store, o3));
        }
      }
    }

    /** A failing save aborts the import with `Failed to import data`. */
    method ImportData(data: ImportData, faults: seq<KvFault>) returns (err: Option<string>)
      modifies kv
      ensures err.Some? ==> err.value == "Failed to import data"
      ensures PhasesResult(kv.store, err.None?, ImportSpec(old(kv.store), data, faults).anyDone) == ImportSpec(old(kv.store), data, faults)
    {
      var completed, _ := RunPhases(ImportSlot(data.assessments, AssessmentRecords), ImportSlot(data.fatigueScales, ScaleRecords),
                                    ImportSlot(data.exerciseSessions, SessionRecords), faults);
      err := if completed then None else Some("Failed to import data");
    }

    /** Sessions from local storage get the ids in `freshIds`, in order. */
    method MigrateFromLocalStorage(inBrowser: bool, a: Slot<DailyAssessment>, s: Slot<FatigueScale>, e: Slot<LegacySession>,
                                   freshIds: seq<string>, faults: seq<KvFault>) returns (migrated: bool)
      requires e.Parsed? ==> |freshIds| >= |e.items|
      modifies kv
      ensures (kv.store, migrated) == MigrateSpec(old(kv.store), inBrowser, a, s, e, freshIds, faults)
    {
      if !inBrowser {
        return false;
      }
      var completed, anyDone := RunPhases(AssessmentSlot(a), ScaleSlot(s), SessionSlot(e, freshIds), faults);
      migrated := completed && anyDone;
    }

    /** Writes `now` under `health_check` and reads it back: true exactly when neither step throws. */
    method HealthCheck(now: int, setThrows: bool, getThrows: bool) returns (healthy: bool)
      modifies kv
      ensures healthy <==> !setThrows && !getThrows
      ensures kv.store == if setThrows then old(kv.store) else old(kv.store)["health_check" := Num(now)]
    {
      if setThrows {
        return false;
      }
      kv.Set("health_check", Num(now));
      if getThrows {
        return false;
      }
      var v := kv.Get("health_check");
      healthy := v.Some?;
    }
  }

  lemma {:induction false} ResolveAppend(m: Store, base: string, a: seq<string>, b: seq<string>)
    ensures Resolve(m, base, a + b) == Resolve(m, base, a) + Resolve(m, base, b)
  {
    if a == [] {
      assert a + b == b;
    } else {
      assert (a + b)[1..] == a[1..] + b;
      ResolveAppend(m, base, a[1..], b);
    }
  }

  /** One more entry read: its record joins the result unless the read throws or misses. */
  lemma ResolveUnflaggedStep(m: Store, base: string, items: seq<string>, throws: seq<bool>, i: nat)
    requires i < |items|
    ensures Resolve(m, base, Unflagged(items[..i + 1], throws))
         == Resolve(m, base, Unflagged(items[..i], throws))
          + (if !Flagged(throws, i) && base + items[i] in m && m[base + items[i]].Rec? then [m[base + items[i]].rec] else [])
  {
    UnflaggedStep(items, throws, i);
    var kept := if Flagged(throws, i) then [] else [items[i]];
    ResolveAppend(m, base, Unflagged(items[..i], throws), kept);
  }

  // ---------------------------------------------------------------------------
  // Properties

  /** Resolution never yields more records than entries. */
  lemma {:induction false} ResolveAtMostEntries(m: Store, base: string, items: seq<string>)
    ensures |Resolve(m, base, items)| <= |items|
  {
    if items != [] {
      ResolveAtMostEntries(m, base, items[1..]);
    }
  }

  /** `getRecentAssessments(limit)` returns at most `limit` records for a positive limit. */
  lemma RecentAtMostLimit(m: Store, limit: int)
    requires limit >= 1
    ensures |Recent(m, limit)| <= limit
  {
    var window := SliceFrom(Index(m, AssessmentKind), -limit);
    SliceFromNegative(Index(m, AssessmentKind), limit);
    ResolveAtMostEntries(m, RecordPrefix(AssessmentKind), Reverse(window));
  }

  /** A throwing entry read drops that entry and no other: with no entry read throwing, the read is `Recent`. */
  lemma RecentReadWithoutFailures(m: Store, limit: int, throws: seq<bool>)
    requires !AnyFlagged(throws, |Reverse(SliceFrom(Index(m, AssessmentKind), -limit))|)
    ensures RecentRead(m, limit, throws) == Recent(m, limit)
  {
  }

  /** Entry read failures only ever shorten the result, so `limit` still bounds it. */
  lemma RecentReadAtMostLimit(m: Store, limit: int, throws: seq<bool>)
    requires limit >= 1
    ensures |RecentRead(m, limit, throws)| <= limit
  {
    var window := SliceFrom(Index(m, AssessmentKind), -limit);
    SliceFromNegative(Index(m, AssessmentKind), limit);
    var kept := Unflagged(Reverse(window), throws);
    ResolveAtMostEntries(m, RecordPrefix(AssessmentKind), kept);
  }

  /** When every looked-at entry read throws, the result is empty. */
  lemma RecentReadAllFailing(m: Store, limit: int, throws: seq<bool>)
    requires var w := Reverse(SliceFrom(Index(m, AssessmentKind), -limit));
             forall i :: 0 <= i < |w| ==> Flagged(throws, i)
    ensures RecentRead(m, limit, throws) == []
  {
    UnflaggedAllFlagged(Reverse(SliceFrom(Index(m, AssessmentKind), -limit)), throws);
  }

  /** A limit of 0 is `slice(-0)`, which keeps the whole index: every entry is looked at, newest entry first. */
  lemma RecentZeroLimitTakesWholeIndex(m: Store)
    ensures Recent(m, 0) == Resolve(m, RecordPrefix(AssessmentKind), Reverse(Index(m, AssessmentKind)))
  {
    SliceFromMinusZero(Index(m, AssessmentKind));
  }

  /** When every entry resolves, resolution is the entries' records in entry order. */
  lemma {:induction false} ResolveAllPresent(m: Store, base: string, items: seq<string>)
    requires forall i :: 0 <= i < |items| ==> base + items[i] in m && m[base + items[i]].Rec?
    ensures |Resolve(m, base, items)| == |items|
    ensures forall i :: 0 <= i < |items| ==> Resolve(m, base, items)[i] == m[base + items[i]].rec
  {
    if items != [] {
      ResolveAllPresent(m, base, items[1..]);
    }
  }

  /**
   * Recent assessments come in reverse insertion order, not date order: with
   * every entry resolving, the `i`-th result is the record of the `i`-th
   * newest index entry.
   */
  lemma RecentIsReverseInsertionOrder(m: Store, limit: int, i: nat)
    requires limit >= 1
    requires var idx := Index(m, AssessmentKind);
             forall j :: 0 <= j < |idx| ==> RecordKey(AssessmentKind, idx[j]) in m && m[RecordKey(AssessmentKind, idx[j])].Rec?
    requires i < Min(limit, |Index(m, AssessmentKind)|)
    ensures i < |Recent(m, limit)|
    ensures var idx := Index(m, AssessmentKind);
            Recent(m, limit)[i] == m[RecordKey(AssessmentKind, idx[|idx| - 1 - i])].rec
  {
    var idx := Index(m, AssessmentKind);
    SliceFromNegative(idx, limit);
    var window := SliceFrom(idx, -limit);
    var w := Reverse(window);
    forall j | 0 <= j < |w| ensures RecordPrefix(AssessmentKind) + w[j] in m && m[RecordPrefix(AssessmentKind) + w[j]].Rec? {
      assert w[j] == idx[|idx| - Min(limit, |idx|) + (|window| - 1 - j)];
    }
    ResolveAllPresent(m, RecordPrefix(AssessmentKind), w);
    assert w[i] == idx[|idx| - 1 - i];
  }

  /** A record key is never an index key. */
  lemma RecordKeyNotIndexKey(kind: KvKind, other: KvKind, item: string)
    ensures RecordKey(kind, item) != IndexKey(other)
  {
    var w := RecordPrefix(kind) + item;
    assert w[0] == RecordPrefix(kind)[0];
    assert IndexKey(other)[0] == 'u';
  }

  /** Whatever the faults, `addToUserList` keeps an index free of duplicates. */
  lemma AddToListKeepsNoDuplicates(m: Store, key: string, item: string, readThrows: bool, writeThrows: bool)
    requires NoDuplicates(ListAt(m, key))
    ensures NoDuplicates(ListAt(AddToList(m, key, item, readThrows, writeThrows), key))
  {
  }

  /** The three kinds have three different index keys. */
  lemma IndexKeysDistinct(kind: KvKind, other: KvKind)
    requires kind != other
    ensures IndexKey(kind) != IndexKey(other)
  {
    assert IndexKey(kind)[5] == ListName(kind)[0];
    assert IndexKey(other)[5] == ListName(other)[0];
  }

  /** Every save, whatever fails, keeps every index free of duplicates. */
  lemma SaveKeepsNoDuplicates(m: Store, kind: KvKind, item: string, rec: Record, fault: KvFault, other: KvKind)
    requires NoDuplicates(Index(m, other))
    ensures NoDuplicates(Index(SaveSpec(m, kind, item, rec, fault), other))
  {
    if fault != SetThrows {
      RecordKeyNotIndexKey(kind, other, item);
      var m1 := m[RecordKey(kind, item) := Rec(rec)];
      assert Index(m1, other) == Index(m, other);
      if other == kind {
        AddToListKeepsNoDuplicates(m1, IndexKey(kind), item, fault == ListReadThrows, fault == ListWriteThrows);
      } else {
        IndexKeysDistinct(kind, other);
        assert Index(SaveSpec(m, kind, item, rec, fault), other) == Index(m1, other);
      }
    }
  }

  /** A failed index read makes `addToUserList` overwrite the index with the one new item. */
  lemma FailedReadOverwritesIndex(m: Store, kind: KvKind, item: string, rec: Record)
    ensures Index(SaveSpec(m, kind, item, rec, ListReadThrows), kind) == [item]
  {
  }

  /** A fault-free save files its entry in the index and keeps the earlier entries in order. */
  lemma SaveExtendsIndex(m: Store, kind: KvKind, item: string, rec: Record)
    ensures var after := Index(SaveSpec(m, kind, item, rec, KvOk), kind);
            after == (if item in Index(m, kind) then Index(m, kind) else Index(m, kind) + [item])
  {
    RecordKeyNotIndexKey(kind, kind, item);
    assert Index(m[RecordKey(kind, item) := Rec(rec)], kind) == Index(m, kind);
  }

  /** A save never touches the index of another kind. */
  lemma SaveKeepsOtherIndex(m: Store, kind: KvKind, item: string, rec: Record, fault: KvFault, other: KvKind)
    requires other != kind
    ensures Index(SaveSpec(m, kind, item, rec, fault), other) == Index(m, other)
  {
    if fault != SetThrows {
      RecordKeyNotIndexKey(kind, other, item);
      IndexKeysDistinct(kind, other);
      assert Index(m[RecordKey(kind, item) := Rec(rec)], other) == Index(m, other);
    }
  }

  /** Every entry of `recs` is in the kind's index. */
  ghost predicate Covered(m: Store, kind: KvKind, recs: seq<Record>) {
    forall i :: 0 <= i < |recs| ==> ItemOf(recs[i]) in Index(m, kind)
  }

  ghost predicate SlotCovered(m: Store, kind: KvKind, slot: Slot<Record>) {
    slot.Parsed? ==> Covered(m, kind, slot.items)
  }

  /** Without faults, a batch of saves runs to the end. */
  lemma {:induction false} SaveEachFaultFree(m: Store, kind: KvKind, recs: seq<Record>, offset: nat)
    ensures SaveEachSpec(m, kind, recs, [], offset).1
    decreases |recs|
  {
    if recs != [] {
      SaveEachFaultFree(SaveSpec(m, kind, ItemOf(recs[0]), recs[0], KvOk), kind, recs[1..], offset + 1);
    }
  }

  /** Without faults, a batch of saves never drops an index entry. */
  lemma {:induction false} SaveEachKeepsEntry(m: Store, kind: KvKind, recs: seq<Record>, offset: nat, other: KvKind, x: string)
    requires x in Index(m, other)
    ensures x in Index(SaveEachSpec(m, kind, recs, [], offset).0, other)
    decreases |recs|
  {
    if recs != [] {
      var m1 := SaveSpec(m, kind, ItemOf(recs[0]), recs[0], KvOk);
      if other == kind {
        SaveExtendsIndex(m, kind, ItemOf(recs[0]), recs[0]);
      } else {
        SaveKeepsOtherIndex(m, kind, ItemOf(recs[0]), recs[0], KvOk, other);
      }
      SaveEachKeepsEntry(m1, kind, recs[1..], offset + 1, other, x);
    }
  }

  /** Without faults, a batch of saves files every entry. */
  lemma {:induction false} SaveEachCovers(m: Store, kind: KvKind, recs: seq<Record>, offset: nat)
    ensures Covered(SaveEachSpec(m, kind, recs, [], offset).0, kind, recs)
    decreases |recs|
  {
    if recs != [] {
      var m1 := SaveSpec(m, kind, ItemOf(recs[0]), recs[0], KvOk);
      var after := SaveEachSpec(m, kind, recs, [], offset).0;
      SaveExtendsIndex(m, kind, ItemOf(recs[0]), recs[0]);
      SaveEachCovers(m1, kind, recs[1..], offset + 1);
      SaveEachKeepsEntry(m1, kind, recs[1..], offset + 1, kind, ItemOf(recs[0]));
      forall i | 0 <= i < |recs| ensures ItemOf(recs[i]) in Index(after, kind) {
        if i > 0 {
          assert recs[i] == recs[1..][i - 1];
        }
      }
    }
  }

  /** A fault-free batch whose entries are all filed already leaves every index as it was. */
  lemma {:induction false} SaveEachCoveredKeepsIndexes(m: Store, kind: KvKind, recs: seq<Record>, offset: nat)
    requires Covered(m, kind, recs)
    ensures forall k :: Index(SaveEachSpec(m, kind, recs, [], offset).0, k) == Index(m, k)
    decreases |recs|
  {
    if recs != [] {
      var m1 := SaveSpec(m, kind, ItemOf(recs[0]), recs[0], KvOk);
      SaveExtendsIndex(m, kind, ItemOf(recs[0]), recs[0]);
      forall k ensures Index(m1, k) == Index(m, k) {
        if k != kind {
          SaveKeepsOtherIndex(m, kind, ItemOf(recs[0]), recs[0], KvOk, k);
        }
      }
      forall i | 0 <= i < |recs[1..]| ensures ItemOf(recs[1..][i]) in Index(m1, kind) {
        assert recs[1..][i] == recs[i + 1];
      }
      SaveEachCoveredKeepsIndexes(m1, kind, recs[1..], offset + 1);
    }
  }

  lemma PhaseFaultFree(m: Store, kind: KvKind, slot: Slot<Record>, offset: nat)
    requires !slot.Unparseable?
    ensures Phase(m, kind, slot, [], offset).outcome == (if slot.Parsed? then Done else Skipped)
  {
    if slot.Parsed? {
      SaveEachFaultFree(m, kind, slot.items, offset);
    }
  }

  lemma PhaseKeepsCovered(m: Store, kind: KvKind, slot: Slot<Record>, offset: nat, other: KvKind, done: Slot<Record>)
    requires SlotCovered(m, other, done)
    ensures SlotCovered(Phase(m, kind, slot, [], offset).store, other, done)
  {
    if slot.Parsed? && done.Parsed? {
      forall i | 0 <= i < |done.items| ensures ItemOf(done.items[i]) in Index(Phase(m, kind, slot, [], offset).store, other) {
        SaveEachKeepsEntry(m, kind, slot.items, offset, other, ItemOf(done.items[i]));
      }
    }
  }

  lemma PhaseCovers(m: Store, kind: KvKind, slot: Slot<Record>, offset: nat)
    ensures SlotCovered(Phase(m, kind, slot, [], offset).store, kind, slot)
  {
    if slot.Parsed? {
      SaveEachCovers(m, kind, slot.items, offset);
    }
  }

  lemma PhaseCoveredKeepsIndexes(m: Store, kind: KvKind, slot: Slot<Record>, offset: nat)
    requires SlotCovered(m, kind, slot)
    ensures forall k :: Index(Phase(m, kind, slot, [], offset).store, k) == Index(m, k)
  {
    if slot.Parsed? {
      SaveEachCoveredKeepsIndexes(m, kind, slot.items, offset);
    }
  }

  /** When neither of the first two batches aborts, the run ends as the third batch does. */
  lemma PhasesRan(m: Store, a: Slot<Record>, s: Slot<Record>, e: Slot<Record>, faults: seq<KvFault>, p1: PhaseResult, p2: PhaseResult, p3: PhaseResult)
    requires p1 == Phase(m, AssessmentKind, a, faults, 0) && p1.outcome != Aborted
    requires p2 == Phase(p1.store, FatigueKind, s, faults, Count(a)) && p2.outcome != Aborted
    requires p3 == Phase(p2.store, ExerciseKind, e, faults, Count(a) + Count(s))
    ensures Phases(m, a, s, e, faults) == PhasesResult(p3.store, p3.outcome != Aborted, p1.outcome == Done || p2.outcome == Done || p3.outcome == Done)
  {
  }

  /** Without faults, the three batches run one after the other. */
  lemma PhasesFaultFree(m: Store, a: Slot<Record>, s: Slot<Record>, e: Slot<Record>)
    requires !a.Unparseable? && !s.Unparseable?
    ensures var r1 := Phase(m, AssessmentKind, a, [], 0).store;
            var r2 := Phase(r1, FatigueKind, s, [], Count(a)).store;
            Phases(m, a, s, e, []).store == Phase(r2, ExerciseKind, e, [], Count(a) + Count(s)).store
  {
    PhaseFaultFree(m, AssessmentKind, a, 0);
    PhaseFaultFree(Phase(m, AssessmentKind, a, [], 0).store, FatigueKind, s, Count(a));
  }

  /** A fault-free import files every entry it was given. */
  lemma ImportCovers(m: Store, a: Slot<Record>, s: Slot<Record>, e: Slot<Record>)
    requires !a.Unparseable? && !s.Unparseable?
    ensures var once := Phases(m, a, s, e, []).store;
            SlotCovered(once, AssessmentKind, a) && SlotCovered(once, FatigueKind, s) && SlotCovered(once, ExerciseKind, e)
  {
    PhasesFaultFree(m, a, s, e);
    BatchesCoverFirst(m, AssessmentKind, a, 0, FatigueKind, s, Count(a), ExerciseKind, e, Count(a) + Count(s));
    var r1 := Phase(m, AssessmentKind, a, [], 0).store;
    var r2 := Phase(r1, FatigueKind, s, [], Count(a)).store;
    TwoBatchesCover(r1, FatigueKind, s, Count(a), ExerciseKind, e, Count(a) + Count(s));
    PhaseCovers(r2, ExerciseKind, e, Count(a) + Count(s));
  }

  /** After three fault-free batches, the first batch's entries are filed. */
  lemma BatchesCoverFirst(m: Store, k1: KvKind, a: Slot<Record>, o1: nat, k2: KvKind, s: Slot<Record>, o2: nat, k3: KvKind, e: Slot<Record>, o3: nat)
    ensures var r1 := Phase(m, k1, a, [], o1).store;
            var r2 := Phase(r1, k2, s, [], o2).store;
            SlotCovered(Phase(r2, k3, e, [], o3).store, k1, a)
  {
    var r1 := Phase(m, k1, a, [], o1).store;
    TwoBatchesCover(m, k1, a, o1, k2, s, o2);
    PhaseKeepsCovered(Phase(r1, k2, s, [], o2).store, k3, e, o3, k1, a);
  }

  /** A fault-free batch files its entries, and a second batch after it keeps them filed. */
  lemma TwoBatchesCover(r1: Store, k2: KvKind, s: Slot<Record>, o2: nat, k3: KvKind, e: Slot<Record>, o3: nat)
    ensures SlotCovered(Phase(Phase(r1, k2, s, [], o2).store, k3, e, [], o3).store, k2, s)
  {
    PhaseCovers(r1, k2, s, o2);
    PhaseKeepsCovered(Phase(r1, k2, s, [], o2).store, k3, e, o3, k2, s);
  }

  /** A fault-free import of entries all filed already leaves every index as it was. */
  lemma ImportCoveredKeepsIndexes(m: Store, a: Slot<Record>, s: Slot<Record>, e: Slot<Record>)
    requires !a.Unparseable? && !s.Unparseable?
    requires SlotCovered(m, AssessmentKind, a) && SlotCovered(m, FatigueKind, s) && SlotCovered(m, ExerciseKind, e)
    ensures forall k :: Index(Phases(m, a, s, e, []).store, k) == Index(m, k)
  {
    PhasesFaultFree(m, a, s, e);
    BatchesKeepIndexes(m, AssessmentKind, a, 0, FatigueKind, s, Count(a), ExerciseKind, e, Count(a) + Count(s));
  }

  /** Three fault-free batches of entries all filed already leave every index as it was. */
  lemma BatchesKeepIndexes(m: Store, k1: KvKind, a: Slot<Record>, o1: nat, k2: KvKind, s: Slot<Record>, o2: nat, k3: KvKind, e: Slot<Record>, o3: nat)
    requires SlotCovered(m, k1, a) && SlotCovered(m, k2, s) && SlotCovered(m, k3, e)
    ensures var r1 := Phase(m, k1, a, [], o1).store;
            var r2 := Phase(r1, k2, s, [], o2).store;
            var r3 := Phase(r2, k3, e, [], o3).store;
            forall k :: Index(r3, k) == Index(m, k)
  {
    var r1 := Phase(m, k1, a, [], o1).store;
    var r2 := Phase(r1, k2, s, [], o2).store;
    PhaseCoveredKeepsIndexes(m, k1, a, o1);
    SameIndexCovers(m, r1, k2, s);
    SameIndexCovers(m, r1, k3, e);
    PhaseCoveredKeepsIndexes(r1, k2, s, o2);
    SameIndexCovers(r1, r2, k3, e);
    PhaseCoveredKeepsIndexes(r2, k3, e, o3);
  }

  /** Coverage depends only on the kind's index. */
  lemma SameIndexCovers(m: Store, m': Store, kind: KvKind, slot: Slot<Record>)
    requires Index(m', kind) == Index(m, kind) && SlotCovered(m, kind, slot)
    ensures SlotCovered(m', kind, slot)
  {
  }

  /** Importing the same data a second time, without faults, leaves every index as the first import left it. */
  lemma ImportRerunKeepsIndexes(m: Store, data: ImportData)
    ensures var once := ImportSpec(m, data, []).store;
            forall k :: Index(ImportSpec(once, data, []).store, k) == Index(once, k)
  {
    var a := ImportSlot(data.assessments, AssessmentRecords);
    var s := ImportSlot(data.fatigueScales, ScaleRecords);
    var e := ImportSlot(data.exerciseSessions, SessionRecords);
    ImportCovers(m, a, s, e);
    ImportCoveredKeepsIndexes(Phases(m, a, s, e, []).store, a, s, e);
  }

  /** Without faults or parse errors, migration reports true exactly in a browser with at least one local list present. */
  lemma MigrateResult(m: Store, inBrowser: bool, a: Slot<DailyAssessment>, s: Slot<FatigueScale>, e: Slot<LegacySession>, freshIds: seq<string>)
    requires e.Parsed? ==> |freshIds| >= |e.items|
    requires !a.Unparseable? && !s.Unparseable? && !e.Unparseable?
    ensures MigrateSpec(m, inBrowser, a, s, e, freshIds, []).1 <==> inBrowser && (a.Parsed? || s.Parsed? || e.Parsed?)
  {
    if inBrowser {
      var ra := AssessmentSlot(a);
      var rs := ScaleSlot(s);
      var re := SessionSlot(e, freshIds);
      var r1 := Phase(m, AssessmentKind, ra, [], 0);
      PhaseFaultFree(m, AssessmentKind, ra, 0);
      var r2 := Phase(r1.store, FatigueKind, rs, [], Count(ra));
      PhaseFaultFree(r1.store, FatigueKind, rs, Count(ra));
      PhaseFaultFree(r2.store, ExerciseKind, re, Count(ra) + Count(rs));
    }
  }

  /** A fault-free batch never touches another kind's index. */
  lemma {:induction false} SaveEachKeepsOtherIndex(m: Store, kind: KvKind, recs: seq<Record>, offset: nat, other: KvKind)
    requires other != kind
    ensures Index(SaveEachSpec(m, kind, recs, [], offset).0, other) == Index(m, other)
    decreases |recs|
  {
    if recs != [] {
      SaveKeepsOtherIndex(m, kind, ItemOf(recs[0]), recs[0], KvOk, other);
      SaveEachKeepsOtherIndex(SaveSpec(m, kind, ItemOf(recs[0]), recs[0], KvOk), kind, recs[1..], offset + 1, other);
    }
  }

  /** An index after `items` are filed in order, each appended unless already there. */
  function Filed(idx: seq<string>, items: seq<string>): seq<string>
    decreases |items|
  {
    if items == [] then idx
    else Filed(if items[0] in idx then idx else idx + [items[0]], items[1..])
  }

  /** Without faults, a batch of saves files its entries in order. */
  lemma {:induction false} SaveEachFiles(m: Store, kind: KvKind, recs: seq<Record>, offset: nat)
    ensures Index(SaveEachSpec(m, kind, recs, [], offset).0, kind) == Filed(Index(m, kind), Items(recs))
    decreases |recs|
  {
    if recs != [] {
      var m1 := SaveSpec(m, kind, ItemOf(recs[0]), recs[0], KvOk);
      SaveExtendsIndex(m, kind, ItemOf(recs[0]), recs[0]);
      assert Items(recs)[1..] == Items(recs[1..]);
      SaveEachFiles(m1, kind, recs[1..], offset + 1);
    }
  }

  /** Filing new, distinct entries appends them. */
  lemma {:induction false} FiledFresh(idx: seq<string>, items: seq<string>)
    requires NoDuplicates(items)
    requires forall i :: 0 <= i < |items| ==> items[i] !in idx
    ensures Filed(idx, items) == idx + items
    decreases |items|
  {
    if items != [] {
      var idx1 := idx + [items[0]];
      forall i | 0 <= i < |items[1..]|
        ensures items[1..][i] !in idx1
      {
        assert items[1..][i] == items[i + 1];
      }
      FiledFresh(idx1, items[1..]);
      assert idx1 + items[1..] == idx + items;
    }
  }

  /** A fault-free batch of new, distinct entries appends them to the index in order. */
  lemma SaveEachFreshAppends(m: Store, kind: KvKind, recs: seq<Record>, offset: nat)
    requires NoDuplicates(Items(recs))
    requires forall i :: 0 <= i < |recs| ==> ItemOf(recs[i]) !in Index(m, kind)
    ensures Index(SaveEachSpec(m, kind, recs, [], offset).0, kind) == Index(m, kind) + Items(recs)
  {
    SaveEachFiles(m, kind, recs, offset);
    FiledFresh(Index(m, kind), Items(recs));
  }

  /**
   * Migrated sessions get fresh ids, so migrating again appends new entries
   * to the session index instead of finding them there.
   */
  lemma MigrateAppendsFreshSessions(m: Store, a: Slot<DailyAssessment>, s: Slot<FatigueScale>, xs: seq<LegacySession>, freshIds: seq<string>)
    requires |freshIds| == |xs|
    requires !a.Unparseable? && !s.Unparseable?
    requires NoDuplicates(freshIds)
    requires forall i :: 0 <= i < |freshIds| ==> freshIds[i] !in Index(m, ExerciseKind)
    ensures Index(MigrateSpec(m, true, a, s, Parsed(xs), freshIds, []).0, ExerciseKind) == Index(m, ExerciseKind) + freshIds
  {
    var ra := AssessmentSlot(a);
    var rs := ScaleSlot(s);
    var recs := MigratedSessions(xs, freshIds);
    assert Items(recs) == freshIds;
    PhasesFaultFree(m, ra, rs, Parsed(recs));
    BatchesAppendFresh(m, ra, rs, recs);
  }

  /** Fault-free batches of assessments and scales, then of new distinct sessions, append the sessions' entries. */
  lemma BatchesAppendFresh(m: Store, a: Slot<Record>, s: Slot<Record>, recs: seq<Record>)
    requires NoDuplicates(Items(recs))
    requires forall i :: 0 <= i < |recs| ==> ItemOf(recs[i]) !in Index(m, ExerciseKind)
    ensures var r1 := Phase(m, AssessmentKind, a, [], 0).store;
            var r2 := Phase(r1, FatigueKind, s, [], Count(a)).store;
            var r3 := Phase(r2, ExerciseKind, Parsed(recs), [], Count(a) + Count(s)).store;
            Index(r3, ExerciseKind) == Index(m, ExerciseKind) + Items(recs)
  {
    var r1 := Phase(m, AssessmentKind, a, [], 0).store;
    var r2 := Phase(r1, FatigueKind, s, [], Count(a)).store;
    if a.Parsed? {
      SaveEachKeepsOtherIndex(m, AssessmentKind, a.items, 0, ExerciseKind);
    }
    if s.Parsed? {
      SaveEachKeepsOtherIndex(r1, FatigueKind, s.items, Count(a), ExerciseKind);
    }
    assert Index(r2, ExerciseKind) == Index(m, ExerciseKind);
    SaveEachFreshAppends(r2, ExerciseKind, recs, Count(a) + Count(s));
  }

}
