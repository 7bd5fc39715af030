/**
 * The per-user record store over Redis (`HealthStorageRedis`). Every key it
 * writes lies under `user:<userId>:`; each record kind has its primary keys
 * and an index list of the keys' last segments, which a save pushes onto
 * without de-duplication and a delete prunes of every occurrence.
 */
module StorageRedis {
  import opened Wrappers
  import opened Records
  import opened Seqs
  import opened Strings
  import opened Sorting
  import opened RedisBackend

  /** The client step at which an exception is thrown: none, before anything is written, or after the first of two writes. */
  datatype Fault = NoFault | FailsBeforeWrite | FailsAfterFirstWrite

  datatype Kind = AssessmentKind | ScaleKind | SessionKind

  /** Records are written with a 30-day time-to-live. */
  const RecordTtl: nat := 86400 * 30

  /** The key segment in front of a record's date or id. */
  function Keyword(kind: Kind): string {
    match kind
    case AssessmentKind => "assessment:"
    case ScaleKind => "fatigue_scale:"
    case SessionKind => "exercise_session:"
  }

  /** The key segment of the kind's index list. */
  function IndexName(kind: Kind): string {
    match kind
    case AssessmentKind => "assessments"
    case ScaleKind => "fatigue_scales"
    case SessionKind => "exercise_sessions"
  }

  /** `userId || 'default_user'`: an absent or empty id becomes `default_user`. */
  function EffectiveUserId(userId: Option<string>): string {
    if userId.Some? && userId.value != "" then userId.value else "default_user"
  }

  function UserPrefix(userId: Option<string>): string {
    "user:" + EffectiveUserId(userId) + ":"
  }

  /** Where the records of a kind live: `<prefix><keyword>`, followed by the date or id. */
  function RecordBase(prefix: string, kind: Kind): string {
    prefix + Keyword(kind)
  }

  function RecordKey(prefix: string, kind: Kind, item: string): string {
    RecordBase(prefix, kind) + item
  }

  function IndexKey(prefix: string, kind: Kind): string {
    prefix + IndexName(kind)
  }

  // ---------------------------------------------------------------------------
  // Specification of the operations on the key space

  /** `setEx` of the record, then `lPush` of its entry; a fault stops the sequence where it strikes. */
  function SaveSpec(ks: KeySpace, prefix: string, kind: Kind, item: string, rec: Record, fault: Fault): KeySpace {
    match fault
    case NoFault =>
      KeySpace(ks.strings[RecordKey(prefix, kind, item) := rec],
               ks.lists[IndexKey(prefix, kind) := [item] + ListAt(ks, IndexKey(prefix, kind))])
    case FailsBeforeWrite => ks
    case FailsAfterFirstWrite =>
      KeySpace(ks.strings[RecordKey(prefix, kind, item) := rec], ks.lists)
  }

  /** `LREM key 0 item` on a key space. */
  function RemoveFromList(ks: KeySpace, key: string, item: string): KeySpace {
    if key in ks.lists then KeySpace(ks.strings, ks.lists[key := RemoveAll(ks.lists[key], item)]) else ks
  }

  /** `del` of the record, then `lRem` of every index occurrence. */
  function DeleteSpec(ks: KeySpace, prefix: string, kind: Kind, item: string, fault: Fault): KeySpace {
    match fault
    case NoFault =>
      RemoveFromList(DeleteKeys(ks, {RecordKey(prefix, kind, item)}), IndexKey(prefix, kind), item)
    case FailsBeforeWrite => ks
    case FailsAfterFirstWrite => DeleteKeys(ks, {RecordKey(prefix, kind, item)})
  }

  /** The records the entries `items` name under `base`, in index order, with misses dropped. */
  function Resolve(strings: map<string, Record>, base: string, items: seq<string>): seq<Record> {
    if items == [] then []
    else (if base + items[0] in strings then [strings[base + items[0]]] else []) + Resolve(strings, base, items[1..])
  }

  /** What listing a kind returns: the resolved records, latest date first. */
  function Listed(ks: KeySpace, prefix: string, kind: Kind): seq<Record> {
    SortDesc(Resolve(ks.strings, RecordBase(prefix, kind), ListAt(ks, IndexKey(prefix, kind))), RecordRank)
  }

  /**
   * What listing a kind returns when the read of the `i`-th index entry
   * throws exactly where `misses` flags `i`: each entry is read through the
   * per-entry getter, which swallows the failure, so that entry is dropped.
   */
  function ListedRead(ks: KeySpace, prefix: string, kind: Kind, misses: seq<bool>): seq<Record> {
    SortDesc(Resolve(ks.strings, RecordBase(prefix, kind), Unflagged(ListAt(ks, IndexKey(prefix, kind)), misses)), RecordRank)
  }

  /** The fault of the `i`-th save of a migration; saves beyond the given faults succeed. */
  function FaultAt(faults: seq<Fault>, i: nat): Fault {
    if i < |faults| then faults[i] else NoFault
  }

  /** Saving `recs` one after the other; the `i`-th suffers `faults[offset + i]`. */
  function SaveAll(ks: KeySpace, prefix: string, kind: Kind, recs: seq<Record>, faults: seq<Fault>, offset: nat): KeySpace
    decreases |recs|
  {
    if recs == [] then ks
    else
      var n := |recs| - 1;
      SaveSpec(SaveAll(ks, prefix, kind, recs[..n], faults, offset), prefix, kind, ItemOf(recs[n]), recs[n], FaultAt(faults, offset + n))
  }

  /** Saving one more record is one more `SaveSpec` step. */
  lemma SaveAllStep(ks: KeySpace, prefix: string, kind: Kind, recs: seq<Record>, faults: seq<Fault>, offset: nat, i: nat)
    requires i < |recs|
    ensures SaveAll(ks, prefix, kind, recs[..i + 1], faults, offset)
         == SaveSpec(SaveAll(ks, prefix, kind, recs[..i], faults, offset), prefix, kind, ItemOf(recs[i]), recs[i], FaultAt(faults, offset + i))
  {
    assert recs[..i + 1][..i] == recs[..i];
  }

  /** Assessments, then scales, then sessions, each in input order; `faults` lists each save's fault in that order. */
  function Migrate(ks: KeySpace, prefix: string, data: HealthData, faults: seq<Fault>): KeySpace {
    SaveBatches(ks, prefix, AssessmentRecords(data.assessments), ScaleRecords(data.fatigueScales), SessionRecords(data.exerciseSessions), faults,
                |data.assessments|, |data.fatigueScales|)
  }

  /** Three batches of saves in turn; the second's faults start at `na`, the third's at `na + ns`. */
  function SaveBatches(ks: KeySpace, prefix: string, ra: seq<Record>, rs: seq<Record>, re: seq<Record>, faults: seq<Fault>, na: nat, ns: nat): KeySpace {
    var k1 := SaveAll(ks, prefix, AssessmentKind, ra, faults, 0);
    var k2 := SaveAll(k1, prefix, ScaleKind, rs, faults, na);
    SaveAll(k2, prefix, SessionKind, re, faults, na + ns)
  }

  function KeysFor(prefix: string, kind: Kind, items: seq<string>): (r: seq<string>)
    ensures |r| == |items|
    ensures forall i :: 0 <= i < |items| ==> r[i] == RecordKey(prefix, kind, items[i])
  {
    seq(|items|, i requires 0 <= i < |items| => RecordKey(prefix, kind, items[i]))
  }

  /** The keys `clearAllData` deletes: the three index keys and every record key they name. */
  function ClearedKeys(ks: KeySpace, prefix: string): set<string> {
    {IndexKey(prefix, AssessmentKind), IndexKey(prefix, ScaleKind), IndexKey(prefix, SessionKind)}
    + (set id | id in ListAt(ks, IndexKey(prefix, AssessmentKind)) :: RecordKey(prefix, AssessmentKind, id))
    + (set id | id in ListAt(ks, IndexKey(prefix, ScaleKind)) :: RecordKey(prefix, ScaleKind, id))
    + (set id | id in ListAt(ks, IndexKey(prefix, SessionKind)) :: RecordKey(prefix, SessionKind, id))
  }

  /** Two key spaces agree on every key outside `prefix`. */
  ghost predicate SameOutside(a: KeySpace, b: KeySpace, prefix: string) {
    forall k :: !StartsWith(k, prefix) ==>
      (k in a.strings <==> k in b.strings)
      && (k in a.strings ==> a.strings[k] == b.strings[k])
      && ListAt(a, k) == ListAt(b, k)
  }

  // ---------------------------------------------------------------------------
  // The store

  class HealthStorageRedis {
    const userPrefix: string
    const backend: Backend

    /** The prefix is `user:<userId>:`, with `default_user` for a missing id. */
    constructor (userId: Option<string>, backend: Backend)
      ensures userPrefix == "user:" + EffectiveUserId(userId) + ":"
      ensures this.backend == backend
    {
      userPrefix := UserPrefix(userId);
      this.backend := backend;
    }

    /** `getClient` then `ping`: true exactly when neither throws. */
    method IsAvailable(fault: Fault) returns (ok: bool)
      ensures ok <==> fault == NoFault
    {
      ok := fault == NoFault;
    }

    method Save(kind: Kind, item: string, rec: Record, fault: Fault) returns (ok: bool)
      modifies backend
      ensures ok <==> fault == NoFault
      ensures backend.State() == SaveSpec(old(backend.State()), userPrefix, kind, item, rec, fault)
    {
      if fault == FailsBeforeWrite {
        return false;
      }
      backend.SetEx(RecordKey(userPrefix, kind, item), RecordTtl, rec);
      if fault == FailsAfterFirstWrite {
        return false;
      }
      backend.LPush(IndexKey(userPrefix, kind), item);
      return true;
    }

    method SaveAssessment(a: DailyAssessment, fault: Fault) returns (ok: bool)
      modifies backend
      ensures ok <==> fault == NoFault
      ensures backend.State() == SaveSpec(old(backend.State()), userPrefix, AssessmentKind, a.date, AssessmentRecord(a), fault)
    {
      ok := Save(AssessmentKind, a.date, AssessmentRecord(a), fault);
    }

    method SaveFatigueScale(s: FatigueScale, fault: Fault) returns (ok: bool)
      modifies backend
      ensures ok <==> fault == NoFault
      ensures backend.State() == SaveSpec(old(backend.State()), userPrefix, ScaleKind, s.id, ScaleRecord(s), fault)
    {
      ok := Save(ScaleKind, s.id, ScaleRecord(s), fault);
    }

    method SaveExerciseSession(e: ExerciseSession, fault: Fault) returns (ok: bool)
      modifies backend
      ensures ok <==> fault == NoFault
      ensures backend.State() == SaveSpec(old(backend.State()), userPrefix, SessionKind, e.id, SessionRecord(e), fault)
    {
      ok := Save(SessionKind, e.id, SessionRecord(e), fault);
    }

    /** The stored record, or `None` when the key is absent or the client throws; never an exception. */
    method Get(kind: Kind, item: string, fault: Fault) returns (r: Option<Record>)
      ensures r.Some? <==> fault == NoFault && RecordKey(userPrefix, kind, item) in backend.strings
      ensures r.Some? ==> r.value == backend.strings[RecordKey(userPrefix, kind, item)]
    {
      if fault != NoFault {
        return None;
      }
      r := backend.Get(RecordKey(userPrefix, kind, item));
    }

    method GetAssessment(date: string, fault: Fault) returns (r: Option<Record>)
      ensures r.Some? <==> fault == NoFault && RecordKey(userPrefix, AssessmentKind, date) in backend.strings
      ensures r.Some? ==> r.value == backend.strings[RecordKey(userPrefix, AssessmentKind, date)]
    {
      r := Get(AssessmentKind, date, fault);
    }

    method GetFatigueScale(id: string, fault: Fault) returns (r: Option<Record>)
      ensures r.Some? <==> fault == NoFault && RecordKey(userPrefix, ScaleKind, id) in backend.strings
      ensures r.Some? ==> r.value == backend.strings[RecordKey(userPrefix, ScaleKind, id)]
    {
      r := Get(ScaleKind, id, fault);
    }

    method GetExerciseSession(id: string, fault: Fault) returns (r: Option<Record>)
      ensures r.Some? <==> fault == NoFault && RecordKey(userPrefix, SessionKind, id) in backend.strings
      ensures r.Some? ==> r.value == backend.strings[RecordKey(userPrefix, SessionKind, id)]
    {
      r := Get(SessionKind, id, fault);
    }

    /**
     * Fetches each listed entry's record through the per-entry getter,
     * dropping misses and entries whose read throws (flagged in `misses`).
     */
    method ReadEach(kind: Kind, items: seq<string>, misses: seq<bool>) returns (found: seq<Record>)
      ensures found == Resolve(backend.strings, RecordBase(userPrefix, kind), Unflagged(items, misses))
    {
      var base := RecordBase(userPrefix, kind);
      ghost var strings := backend.strings;
      found := [];
      var i := 0;
      while i < |items|
        invariant 0 <= i <= |items|
        invariant found == ReadUpTo(strings, base, items, misses, i)
      {
        var rec := Get(kind, items[i], if Flagged(misses, i) then FailsBeforeWrite else NoFault);
        assert RecordKey(userPrefix, kind, items[i]) == base + items[i];
        found := found + (if rec.Some? then [rec.value] else []);
        i := i + 1;
      }
      ReadUpToAll(strings, base, items, misses, |items|);
      assert items[..|items|] == items;
    }

    /**
     * Walks the index, reading each entry (see ReadEach), then sorts latest
     * date first; a failure reading the index yields the empty list.
     */
    method List(kind: Kind, fault: Fault, misses: seq<bool>) returns (r: seq<Record>)
      ensures fault != NoFault ==> r == []
      ensures fault == NoFault ==> r == ListedRead(backend.State(), userPrefix, kind, misses)
    {
      if fault != NoFault {
        return [];
      }
      var items := backend.LRange(IndexKey(userPrefix, kind));
      if |items| == 0 {
        return [];
      }
      var found := ReadEach(kind, items, misses);
      r := SortDesc(found, RecordRank);
    }

    method GetAssessments(fault: Fault, misses: seq<bool>) returns (r: seq<Record>)
      ensures fault != NoFault ==> r == []
      ensures fault == NoFault ==> r == ListedRead(backend.State(), userPrefix, AssessmentKind, misses)
    {
      r := List(AssessmentKind, fault, misses);
    }

    method GetFatigueScales(fault: Fault, misses: seq<bool>) returns (r: seq<Record>)
      ensures fault != NoFault ==> r == []
      ensures fault == NoFault ==> r == ListedRead(backend.State(), userPrefix, ScaleKind, misses)
    {
      r := List(ScaleKind, fault, misses);
    }

    method GetExerciseSessions(fault: Fault, misses: seq<bool>) returns (r: seq<Record>)
      ensures fault != NoFault ==> r == []
      ensures fault == NoFault ==> r == ListedRead(backend.State(), userPrefix, SessionKind, misses)
    {
      r := List(SessionKind, fault, misses);
    }

    /** `del` then `lRem ... 0`; true whenever the client does not throw, whether or not anything existed. */
    method Delete(kind: Kind, item: string, fault: Fault) returns (ok: bool)
      modifies backend
      ensures ok <==> fault == NoFault
      ensures backend.State() == DeleteSpec(old(backend.State()), userPrefix, kind, item, fault)
    {
      if fault == FailsBeforeWrite {
        return false;
      }
      var key := RecordKey(userPrefix, kind, item);
      assert (set k | k in [key]) == {key};
      backend.Del([key]);
      if fault == FailsAfterFirstWrite {
        return false;
      }
      backend.LRem(IndexKey(userPrefix, kind), item);
      return true;
    }

    method DeleteAssessment(date: string, fault: Fault) returns (ok: bool)
      modifies backend
      ensures ok <==> fault == NoFault
      ensures backend.State() == DeleteSpec(old(backend.State()), userPrefix, AssessmentKind, date, fault)
    {
      ok := Delete(AssessmentKind, date, fault);
    }

    method DeleteFatigueScale(id: string, fault: Fault) returns (ok: bool)
      modifies backend
      ensures ok <==> fault == NoFault
      ensures backend.State() == DeleteSpec(old(backend.State()), userPrefix, ScaleKind, id, fault)
    {
      ok := Delete(ScaleKind, id, fault);
    }

    method DeleteExerciseSession(id: string, fault: Fault) returns (ok: bool)
      modifies backend
      ensures ok <==> fault == NoFault
      ensures backend.State() == DeleteSpec(old(backend.State()), userPrefix, SessionKind, id, fault)
    {
      ok := Delete(SessionKind, id, fault);
    }

    /** Saves `recs` in order; the `i`-th save suffers `faults[offset + i]`. */
    method SaveEach(kind: Kind, recs: seq<Record>, faults: seq<Fault>, offset: nat)
      modifies backend
      ensures backend.State() == SaveAll(old(backend.State()), userPrefix, kind, recs, faults, offset)
    {
      var i := 0;
      while i < |recs|
        invariant 0 <= i <= |recs|
        invariant backend.State() == SaveAll(old(backend.State()), userPrefix, kind, recs[..i], faults, offset)
      {
        SaveAllStep(old(backend.State()), userPrefix, kind, recs, faults, offset, i);
        var _ := Save(kind, ItemOf(recs[i]), recs[i], FaultAt(faults, offset + i));
        i := i + 1;
      }
      assert recs[..|recs|] == recs;
    }

    /**
     * Saves the assessments, then the scales, then the sessions, each in
     * input order. The saves swallow their own failures, so it reports true.
     */
    method MigrateFromLocalStorage(data: HealthData, faults: seq<Fault>) returns (ok: bool)
      modifies backend
      ensures ok
      ensures backend.State() == Migrate(old(backend.State()), userPrefix, data, faults)
    {
      var ra, rs, re := AssessmentRecords(data.assessments), ScaleRecords(data.fatigueScales), SessionRecords(data.exerciseSessions);
      SaveInTurn(ra, rs, re, faults, |data.assessments|, |data.fatigueScales|);
      ok := true;
    }

    /** Saves each batch in turn. */
    method SaveInTurn(ra: seq<Record>, rs: seq<Record>, re: seq<Record>, faults: seq<Fault>, na: nat, ns: nat)
      modifies backend
      ensures backend.State() == SaveBatches(old(backend.State()), userPrefix, ra, rs, re, faults, na, ns)
    {
      SaveEach(AssessmentKind, ra, faults, 0);
      SaveEach(ScaleKind, rs, faults, na);
      SaveEach(SessionKind, re, faults, na + ns);
    }

    /** The three listings; each swallows its own failure. */
    method GetAllData(faults: (Fault, Fault, Fault), misses: (seq<bool>, seq<bool>, seq<bool>)) returns (a: seq<Record>, s: seq<Record>, e: seq<Record>)
      ensures a == (if faults.0 == NoFault then ListedRead(backend.State(), userPrefix, AssessmentKind, misses.0) else [])
      ensures s == (if faults.1 == NoFault then ListedRead(backend.State(), userPrefix, ScaleKind, misses.1) else [])
      ensures e == (if faults.2 == NoFault then ListedRead(backend.State(), userPrefix, SessionKind, misses.2) else [])
    {
      a := GetAssessments(faults.0, misses.0);
      s := GetFatigueScales(faults.1, misses.1);
      e := GetExerciseSessions(faults.2, misses.2);
    }

    /** Reads the three indexes and deletes them together with every record key they name. */
    method ClearAllData(fault: Fault) returns (ok: bool)
      modifies backend
      ensures ok <==> fault == NoFault
      ensures fault == NoFault ==> backend.State() == DeleteKeys(old(backend.State()), ClearedKeys(old(backend.State()), userPrefix))
      ensures fault != NoFault ==> backend.State() == old(backend.State())
    {
      if fault != NoFault {
        return false;
      }
      var ks := backend.State();
      var aIds := backend.LRange(IndexKey(userPrefix, AssessmentKind));
      var sIds := backend.LRange(IndexKey(userPrefix, ScaleKind));
      var eIds := backend.LRange(IndexKey(userPrefix, SessionKind));
      var keys := [IndexKey(userPrefix, AssessmentKind), IndexKey(userPrefix, ScaleKind), IndexKey(userPrefix, SessionKind)]
        + KeysFor(userPrefix, AssessmentKind, aIds)
        + KeysFor(userPrefix, ScaleKind, sIds)
        + KeysFor(userPrefix, SessionKind, eIds);
      ClearedKeysAreListed(ks, userPrefix, keys, aIds, sIds, eIds);
      backend.Del(keys);
      return true;
    }
  }

  /** The key list `clearAllData` builds names exactly `ClearedKeys`. */
  lemma ClearedKeysAreListed(ks: KeySpace, prefix: string, keys: seq<string>, aIds: seq<string>, sIds: seq<string>, eIds: seq<string>)
    requires aIds == ListAt(ks, IndexKey(prefix, AssessmentKind))
    requires sIds == ListAt(ks, IndexKey(prefix, ScaleKind))
    requires eIds == ListAt(ks, IndexKey(prefix, SessionKind))
    requires keys == [IndexKey(prefix, AssessmentKind), IndexKey(prefix, ScaleKind), IndexKey(prefix, SessionKind)]
                     + KeysFor(prefix, AssessmentKind, aIds) + KeysFor(prefix, ScaleKind, sIds) + KeysFor(prefix, SessionKind, eIds)
    ensures (set k | k in keys) == ClearedKeys(ks, prefix)
  {
    var heads := [IndexKey(prefix, AssessmentKind), IndexKey(prefix, ScaleKind), IndexKey(prefix, SessionKind)];
    var ka := KeysFor(prefix, AssessmentKind, aIds);
    var kS := KeysFor(prefix, ScaleKind, sIds);
    var ke := KeysFor(prefix, SessionKind, eIds);
    KeysForNames(prefix, AssessmentKind, aIds);
    KeysForNames(prefix, ScaleKind, sIds);
    KeysForNames(prefix, SessionKind, eIds);
    ElementsOfAppend(heads, ka);
    ElementsOfAppend(heads + ka, kS);
    ElementsOfAppend(heads + ka + kS, ke);
    assert (set k | k in heads) == {IndexKey(prefix, AssessmentKind), IndexKey(prefix, ScaleKind), IndexKey(prefix, SessionKind)};
  }

  /** The keys built for a list of ids are the record keys of those ids. */
  lemma KeysForNames(prefix: string, kind: Kind, ids: seq<string>)
    ensures (set k | k in KeysFor(prefix, kind, ids)) == (set id | id in ids :: RecordKey(prefix, kind, id))
  {
    var keys := KeysFor(prefix, kind, ids);
    forall k | k in keys
      ensures k in (set id | id in ids :: RecordKey(prefix, kind, id))
    {
      var i :| 0 <= i < |keys| && keys[i] == k;
      assert ids[i] in ids;
    }
    forall id | id in ids
      ensures RecordKey(prefix, kind, id) in keys
    {
      var i :| 0 <= i < |ids| && ids[i] == id;
      assert keys[i] == RecordKey(prefix, kind, id);
    }
  }

  /** Resolving a concatenation resolves each part. */
  lemma {:induction false} ResolveAppend(strings: map<string, Record>, base: string, a: seq<string>, b: seq<string>)
    ensures Resolve(strings, base, a + b) == Resolve(strings, base, a) + Resolve(strings, base, b)
  {
    if a == [] {
      assert a + b == b;
    } else {
      assert (a + b)[1..] == a[1..] + b;
      ResolveAppend(strings, base, a[1..], b);
    }
  }

  /** One more entry read: its record joins the result unless the read throws or misses. */
  lemma ResolveUnflaggedStep(strings: map<string, Record>, base: string, items: seq<string>, misses: seq<bool>, i: nat)
    requires i < |items|
    ensures Resolve(strings, base, Unflagged(items[..i + 1], misses))
         == Resolve(strings, base, Unflagged(items[..i], misses))
          + (if !Flagged(misses, i) && base + items[i] in strings then [strings[base + items[i]]] else [])
  {
    UnflaggedStep(items, misses, i);
    var kept := if Flagged(misses, i) then [] else [items[i]];
    ResolveAppend(strings, base, Unflagged(items[..i], misses), kept);
  }

  // ---------------------------------------------------------------------------
  // Properties

  /** A throwing entry read drops that entry and no other: with no entry read throwing, the listing is `Listed`. */
  lemma ListedReadWithoutFailures(ks: KeySpace, prefix: string, kind: Kind, misses: seq<bool>)
    requires !AnyFlagged(misses, |ListAt(ks, IndexKey(prefix, kind))|)
    ensures ListedRead(ks, prefix, kind, misses) == Listed(ks, prefix, kind)
  {
  }

  /** The records of the first `i` entries read one at a time, flagged entries and misses dropped. */
  function ReadUpTo(strings: map<string, Record>, base: string, items: seq<string>, misses: seq<bool>, i: nat): seq<Record>
    requires i <= |items|
  {
    if i == 0 then []
    else
      var key := base + items[i - 1];
      ReadUpTo(strings, base, items, misses, i - 1) + (if !Flagged(misses, i - 1) && key in strings then [strings[key]] else [])
  }

  /** Reading the first `i` entries one at a time resolves the unflagged ones among them. */
  lemma {:induction false} ReadUpToAll(strings: map<string, Record>, base: string, items: seq<string>, misses: seq<bool>, i: nat)
    requires i <= |items|
    ensures ReadUpTo(strings, base, items, misses, i) == Resolve(strings, base, Unflagged(items[..i], misses))
  {
    if i > 0 {
      var j := i - 1;
      var key := base + items[j];
      assert ReadUpTo(strings, base, items, misses, i)
          == ReadUpTo(strings, base, items, misses, j) + (if !Flagged(misses, j) && key in strings then [strings[key]] else []);
      ReadUpToAll(strings, base, items, misses, j);
      ResolveUnflaggedStep(strings, base, items, misses, j);
    }
  }

  /** Resolving a non-empty list adds its last entry's record, if stored, to resolving the rest. */
  lemma ResolveLast(strings: map<string, Record>, base: string, items: seq<string>)
    requires items != []
    ensures var n := |items| - 1;
            Resolve(strings, base, items)
            == Resolve(strings, base, items[..n]) + (if base + items[n] in strings then [strings[base + items[n]]] else [])
  {
    var n := |items| - 1;
    assert items == items[..n] + [items[n]];
    ResolveAppend(strings, base, items[..n], [items[n]]);
  }

  /** Resolving the unflagged entries of a non-empty list adds its last entry's record when unflagged and stored. */
  lemma ResolveUnflaggedLast(strings: map<string, Record>, base: string, items: seq<string>, misses: seq<bool>)
    requires items != []
    ensures var n := |items| - 1;
            Resolve(strings, base, Unflagged(items, misses))
            == Resolve(strings, base, Unflagged(items[..n], misses))
               + (if !Flagged(misses, n) && base + items[n] in strings then [strings[base + items[n]]] else [])
  {
    var n := |items| - 1;
    ResolveUnflaggedStep(strings, base, items, misses, n);
    assert items[..n + 1] == items;
  }

  /** Appending a sub-multiset to a sub-multiset keeps the inclusion. */
  lemma MultisetAppendWithin(a: seq<Record>, b: seq<Record>, x: seq<Record>, y: seq<Record>)
    requires multiset(a) <= multiset(b) && multiset(x) <= multiset(y)
    ensures multiset(a + x) <= multiset(b + y)
  {
  }

  /** Dropping flagged entries before resolving them only ever removes records. */
  lemma {:induction false} ResolveUnflaggedWithin(strings: map<string, Record>, base: string, items: seq<string>, misses: seq<bool>)
    ensures multiset(Resolve(strings, base, Unflagged(items, misses))) <= multiset(Resolve(strings, base, items))
    decreases |items|
  {
    if items != [] {
      var n := |items| - 1;
      var front := items[..n];
      ResolveUnflaggedWithin(strings, base, front, misses);
      ResolveUnflaggedLast(strings, base, items, misses);
      ResolveLast(strings, base, items);
      var hit := if base + items[n] in strings then [strings[base + items[n]]] else [];
      var kept := if !Flagged(misses, n) then hit else [];
      MultisetAppendWithin(Resolve(strings, base, Unflagged(front, misses)), Resolve(strings, base, front), kept, hit);
    }
  }

  /** Entry read failures only ever remove records: the listing is contained, as a multiset, in the fault-free one. */
  lemma ListedReadWithinListed(ks: KeySpace, prefix: string, kind: Kind, misses: seq<bool>)
    ensures multiset(ListedRead(ks, prefix, kind, misses)) <= multiset(Listed(ks, prefix, kind))
  {
    ResolveUnflaggedWithin(ks.strings, RecordBase(prefix, kind), ListAt(ks, IndexKey(prefix, kind)), misses);
  }

  /** When every entry read throws, the listing is empty. */
  lemma ListedReadAllFailing(ks: KeySpace, prefix: string, kind: Kind, misses: seq<bool>)
    requires forall i :: 0 <= i < |ListAt(ks, IndexKey(prefix, kind))| ==> Flagged(misses, i)
    ensures ListedRead(ks, prefix, kind, misses) == []
  {
    UnflaggedAllFlagged(ListAt(ks, IndexKey(prefix, kind)), misses);
  }

  /** Every key an instance touches lies under `user:<userId>:`. */
  lemma KeysUnderUserPrefix(userId: Option<string>, kind: Kind, item: string)
    ensures StartsWith(RecordKey(UserPrefix(userId), kind, item), "user:" + EffectiveUserId(userId) + ":")
    ensures StartsWith(IndexKey(UserPrefix(userId), kind), "user:" + EffectiveUserId(userId) + ":")
  {
    var p := UserPrefix(userId);
    assert RecordKey(p, kind, item) == p + (Keyword(kind) + item);
    StartsWithConcat(p, Keyword(kind) + item);
    StartsWithConcat(p, IndexName(kind));
  }

  /** Distinct kinds or entries give distinct record keys under one prefix. */
  lemma RecordKeyInjective(prefix: string, k1: Kind, i1: string, k2: Kind, i2: string)
    requires RecordKey(prefix, k1, i1) == RecordKey(prefix, k2, i2)
    ensures k1 == k2 && i1 == i2
  {
    var w1, w2 := Keyword(k1) + i1, Keyword(k2) + i2;
    assert RecordKey(prefix, k1, i1) == prefix + w1;
    assert RecordKey(prefix, k2, i2) == prefix + w2;
    ConcatInjective(prefix, w1, w2);
    assert Keyword(k1)[0] == w1[0] == w2[0] == Keyword(k2)[0];
    KeywordHeadsDiffer(k1, k2);
    ConcatInjective(Keyword(k1), i1, i2);
  }

  /** The three keywords start with different letters. */
  lemma KeywordHeadsDiffer(k1: Kind, k2: Kind)
    requires Keyword(k1)[0] == Keyword(k2)[0]
    ensures k1 == k2
  {
  }

  /** A record key is never an index key, so deleting a record leaves every index in place. */
  lemma RecordKeyNotIndexKey(prefix: string, kind: Kind, other: Kind, item: string)
    ensures RecordKey(prefix, kind, item) != IndexKey(prefix, other)
  {
    var w := Keyword(kind) + item;
    assert w[0] == Keyword(kind)[0];
    assert w[|Keyword(kind)| - 1] == ':';
    assert RecordKey(prefix, kind, item) == prefix + w;
    if RecordKey(prefix, kind, item) == IndexKey(prefix, other) {
      ConcatInjective(prefix, w, IndexName(other));
      assert false;
    }
  }

  /** Saving a record in a kind's base at `item` is what `Resolve` finds there. */
  lemma RecordKeyIsBasePlusItem(prefix: string, kind: Kind, item: string)
    ensures RecordBase(prefix, kind) + item == RecordKey(prefix, kind, item)
  {
  }

  /** Saving the same record twice leaves two index entries for it: the push does not de-duplicate. */
  lemma SaveTwiceDuplicatesIndex(ks: KeySpace, prefix: string, kind: Kind, item: string, rec: Record)
    ensures ListAt(SaveSpec(SaveSpec(ks, prefix, kind, item, rec, NoFault), prefix, kind, item, rec, NoFault), IndexKey(prefix, kind))
            == [item, item] + ListAt(ks, IndexKey(prefix, kind))
    ensures multiset(ListAt(SaveSpec(SaveSpec(ks, prefix, kind, item, rec, NoFault), prefix, kind, item, rec, NoFault), IndexKey(prefix, kind)))[item]
            == multiset(ListAt(ks, IndexKey(prefix, kind)))[item] + 2
  {
    var ks1 := SaveSpec(ks, prefix, kind, item, rec, NoFault);
    SavePushesIndex(ks, prefix, kind, item, rec);
    SavePushesIndex(ks1, prefix, kind, item, rec);
    PushTwiceCounts(ListAt(ks, IndexKey(prefix, kind)), item);
  }

  /** Pushing `item` twice in front adds two occurrences of it. */
  lemma PushTwiceCounts(l: seq<string>, item: string)
    ensures [item] + ([item] + l) == [item, item] + l
    ensures multiset([item, item] + l)[item] == multiset(l)[item] + 2
  {
    assert [item] + ([item] + l) == [item, item] + l;
  }

  /** A listing holds a stored record at least as often as the index names its key. */
  lemma {:induction false} ResolveCountsEntries(strings: map<string, Record>, base: string, items: seq<string>, item: string)
    requires base + item in strings
    ensures multiset(Resolve(strings, base, items))[strings[base + item]] >= multiset(items)[item]
  {
    if items != [] {
      ResolveCountsEntries(strings, base, items[1..], item);
      assert items == [items[0]] + items[1..];
    }
  }

  /** After a record is saved twice, the listing of its kind shows it twice: the duplicate the index causes. */
  lemma DuplicateSaveListsTwice(ks: KeySpace, prefix: string, kind: Kind, item: string, rec: Record)
    ensures multiset(Listed(SaveSpec(SaveSpec(ks, prefix, kind, item, rec, NoFault), prefix, kind, item, rec, NoFault), prefix, kind))[rec] >= 2
  {
    var ks2 := SaveSpec(SaveSpec(ks, prefix, kind, item, rec, NoFault), prefix, kind, item, rec, NoFault);
    var base := RecordBase(prefix, kind);
    SaveTwiceDuplicatesIndex(ks, prefix, kind, item, rec);
    RecordKeyIsBasePlusItem(prefix, kind, item);
    assert ks2.strings[base + item] == rec;
    ResolveCountsEntries(ks2.strings, base, ListAt(ks2, IndexKey(prefix, kind)), item);
  }

  /** Every listed record is stored under an entry of the index, in index order. */
  lemma {:induction false} ResolveAllPresent(strings: map<string, Record>, base: string, items: seq<string>)
    requires forall i :: 0 <= i < |items| ==> base + items[i] in strings
    ensures |Resolve(strings, base, items)| == |items|
    ensures forall i :: 0 <= i < |items| ==> Resolve(strings, base, items)[i] == strings[base + items[i]]
  {
    if items != [] {
      ResolveAllPresent(strings, base, items[1..]);
    }
  }

  /** A record whose key has expired drops out of the listing as if its entry had been removed from the index. */
  lemma {:induction false} ExpiryIsIndexRemoval(strings: map<string, Record>, base: string, items: seq<string>, item: string)
    ensures Resolve(strings - {base + item}, base, items) == Resolve(strings, base, RemoveAll(items, item))
  {
    if items != [] {
      ExpiryIsIndexRemoval(strings, base, items[1..], item);
      if items[0] != item {
        if base + items[0] == base + item {
          ConcatInjective(base, items[0], item);
        }
      }
    }
  }

  /** A fault-free delete removes the record and every index occurrence of its entry, and nothing else of the index. */
  lemma DeletePrunesIndex(ks: KeySpace, prefix: string, kind: Kind, item: string)
    ensures RecordKey(prefix, kind, item) !in DeleteSpec(ks, prefix, kind, item, NoFault).strings
    ensures ListAt(DeleteSpec(ks, prefix, kind, item, NoFault), IndexKey(prefix, kind)) == RemoveAll(ListAt(ks, IndexKey(prefix, kind)), item)
  {
    RecordKeyNotIndexKey(prefix, kind, kind, item);
  }

  /** `LREM key 0 item` twice is `LREM key 0 item` once. */
  lemma RemoveFromListIdempotent(ks: KeySpace, key: string, item: string)
    ensures RemoveFromList(RemoveFromList(ks, key, item), key, item) == RemoveFromList(ks, key, item)
  {
    if key in ks.lists {
      RemoveAllIdempotent(ks.lists[key], item);
    }
  }

  /** Deleting twice is deleting once. */
  lemma DeleteIdempotent(ks: KeySpace, prefix: string, kind: Kind, item: string)
    ensures DeleteSpec(DeleteSpec(ks, prefix, kind, item, NoFault), prefix, kind, item, NoFault)
            == DeleteSpec(ks, prefix, kind, item, NoFault)
  {
    var idx := IndexKey(prefix, kind);
    var key := RecordKey(prefix, kind, item);
    var d := DeleteKeys(ks, {key});
    var once := RemoveFromList(d, idx, item);
    assert once == DeleteSpec(ks, prefix, kind, item, NoFault);
    assert key !in once.strings && key !in once.lists;
    assert DeleteKeys(once, {key}) == once by {
      assert once.strings - {key} == once.strings;
      assert once.lists - {key} == once.lists;
    }
    RemoveFromListIdempotent(d, idx, item);
  }

  /** Deleting an entry the index does not hold leaves the index as it was, and still reports success. */
  lemma DeleteMissingKeepsIndex(ks: KeySpace, prefix: string, kind: Kind, item: string)
    requires item !in ListAt(ks, IndexKey(prefix, kind))
    ensures ListAt(DeleteSpec(ks, prefix, kind, item, NoFault), IndexKey(prefix, kind)) == ListAt(ks, IndexKey(prefix, kind))
  {
    DeletePrunesIndex(ks, prefix, kind, item);
    RemoveAllAbsent(ListAt(ks, IndexKey(prefix, kind)), item);
  }

  /** A store's save never changes a key outside its user's prefix. */
  lemma SaveStaysInPrefix(ks: KeySpace, prefix: string, kind: Kind, item: string, rec: Record, fault: Fault)
    ensures SameOutside(ks, SaveSpec(ks, prefix, kind, item, rec, fault), prefix)
  {
    var after := SaveSpec(ks, prefix, kind, item, rec, fault);
    forall k | !StartsWith(k, prefix)
      ensures (k in ks.strings <==> k in after.strings)
              && (k in ks.strings ==> ks.strings[k] == after.strings[k])
              && ListAt(ks, k) == ListAt(after, k)
    {
      KeysUnderPrefix(prefix, kind, item);
    }
  }

  /** A store's delete never changes a key outside its user's prefix. */
  lemma DeleteStaysInPrefix(ks: KeySpace, prefix: string, kind: Kind, item: string, fault: Fault)
    ensures SameOutside(ks, DeleteSpec(ks, prefix, kind, item, fault), prefix)
  {
    var after := DeleteSpec(ks, prefix, kind, item, fault);
    forall k | !StartsWith(k, prefix)
      ensures (k in ks.strings <==> k in after.strings)
              && (k in ks.strings ==> ks.strings[k] == after.strings[k])
              && ListAt(ks, k) == ListAt(after, k)
    {
      KeysUnderPrefix(prefix, kind, item);
    }
  }

  /** Clearing a user's data never changes a key outside that user's prefix. */
  lemma ClearStaysInPrefix(ks: KeySpace, prefix: string)
    ensures SameOutside(ks, DeleteKeys(ks, ClearedKeys(ks, prefix)), prefix)
  {
    forall k | k in ClearedKeys(ks, prefix)
      ensures StartsWith(k, prefix)
    {
      ClearedKeyUnderPrefix(ks, prefix, k);
    }
  }

  /** Every key a clear deletes starts with the prefix. */
  lemma ClearedKeyUnderPrefix(ks: KeySpace, prefix: string, k: string)
    requires k in ClearedKeys(ks, prefix)
    ensures StartsWith(k, prefix)
  {
    var ia := ListAt(ks, IndexKey(prefix, AssessmentKind));
    var iz := ListAt(ks, IndexKey(prefix, ScaleKind));
    var ie := ListAt(ks, IndexKey(prefix, SessionKind));
    if k == IndexKey(prefix, AssessmentKind) || k in (set id | id in ia :: RecordKey(prefix, AssessmentKind, id)) {
      KindKeyUnderPrefix(prefix, AssessmentKind, ia, k);
    } else if k == IndexKey(prefix, ScaleKind) || k in (set id | id in iz :: RecordKey(prefix, ScaleKind, id)) {
      KindKeyUnderPrefix(prefix, ScaleKind, iz, k);
    } else {
      KindKeyUnderPrefix(prefix, SessionKind, ie, k);
    }
  }

  /** A kind's index key and the record keys its entries name start with the prefix. */
  lemma KindKeyUnderPrefix(prefix: string, kind: Kind, ids: seq<string>, k: string)
    requires k == IndexKey(prefix, kind) || k in (set id | id in ids :: RecordKey(prefix, kind, id))
    ensures StartsWith(k, prefix)
  {
    if k == IndexKey(prefix, kind) {
      KeysUnderPrefix(prefix, kind, "");
    } else {
      var id :| id in ids && k == RecordKey(prefix, kind, id);
      KeysUnderPrefix(prefix, kind, id);
    }
  }


  /**
   * The prefixes of two different user ids without `':'` share no key: each
   * prefix ends at the first `':'` after `user:`.
   */
  lemma UserPrefixesDisjoint(u: Option<string>, v: Option<string>, k: string)
    requires EffectiveUserId(u) != EffectiveUserId(v)
    requires ':' !in EffectiveUserId(u) && ':' !in EffectiveUserId(v)
    ensures !(StartsWith(k, UserPrefix(u)) && StartsWith(k, UserPrefix(v)))
  {
    if StartsWith(k, UserPrefix(u)) && StartsWith(k, UserPrefix(v)) {
      UserSegment(EffectiveUserId(u), k);
      UserSegment(EffectiveUserId(v), k);
    }
  }

  /** The text before the first `':'` (all of it when there is none). */
  function Segment(s: string): (r: string)
    ensures |r| <= |s| && r == s[..|r|]
    ensures ':' !in r
  {
    if s == [] || s[0] == ':' then [] else [s[0]] + Segment(s[1..])
  }

  /** A text without `':'` followed by `':'` is the segment of anything it starts. */
  lemma {:induction false} SegmentOfPrefix(a: string, rest: string)
    requires ':' !in a
    ensures Segment(a + ":" + rest) == a
  {
    if a != [] {
      assert (a + ":" + rest)[1..] == a[1..] + ":" + rest;
      SegmentOfPrefix(a[1..], rest);
    }
  }

  /** A key under `user:<a>:`, with `a` free of `':'`, names `a` as the segment after `user:`. */
  lemma UserSegment(a: string, k: string)
    requires ':' !in a
    requires StartsWith(k, "user:" + a + ":")
    ensures Segment(k[5..]) == a
  {
    var rest := k[|a| + 6..];
    assert k[5..] == a + ":" + rest;
    SegmentOfPrefix(a, rest);
  }

  /** With a `':'` in an id, one user's record key can be another user's index key. */
  lemma ColonIdsCollide()
    ensures RecordKey(UserPrefix(Some("a")), ScaleKind, "fatigue_scales") == IndexKey(UserPrefix(Some("a:fatigue_scale")), ScaleKind)
  {
  }

  /**
   * Whatever one user's store changes only under its own prefix leaves every
   * key of another user (ids without `':'`) as it was.
   */
  lemma OtherUsersUntouched(before: KeySpace, after: KeySpace, u: Option<string>, v: Option<string>)
    requires SameOutside(before, after, UserPrefix(u))
    requires EffectiveUserId(u) != EffectiveUserId(v)
    requires ':' !in EffectiveUserId(u) && ':' !in EffectiveUserId(v)
    ensures forall k :: StartsWith(k, UserPrefix(v)) ==>
              (k in before.strings <==> k in after.strings)
              && (k in before.strings ==> before.strings[k] == after.strings[k])
              && ListAt(before, k) == ListAt(after, k)
  {
    forall k | StartsWith(k, UserPrefix(v))
      ensures (k in before.strings <==> k in after.strings)
              && (k in before.strings ==> before.strings[k] == after.strings[k])
              && ListAt(before, k) == ListAt(after, k)
    {
      UserPrefixesDisjoint(u, v, k);
    }
  }

  /** The record and index keys of a kind start with the prefix. */
  lemma KeysUnderPrefix(prefix: string, kind: Kind, item: string)
    ensures StartsWith(RecordKey(prefix, kind, item), prefix)
    ensures StartsWith(IndexKey(prefix, kind), prefix)
  {
    assert RecordKey(prefix, kind, item) == prefix + (Keyword(kind) + item);
    StartsWithConcat(prefix, Keyword(kind) + item);
    StartsWithConcat(prefix, IndexName(kind));
  }

  /** After a clear, every listing of the user is empty. */
  lemma ClearEmptiesListings(ks: KeySpace, prefix: string, kind: Kind)
    ensures Listed(DeleteKeys(ks, ClearedKeys(ks, prefix)), prefix, kind) == []
  {
    assert IndexKey(prefix, kind) in ClearedKeys(ks, prefix);
  }

  /** A clear deletes only what the indexes name: a record whose entry is missing from its index survives it. */
  lemma ClearKeepsUnindexedRecords(ks: KeySpace, prefix: string, kind: Kind, item: string)
    requires RecordKey(prefix, kind, item) in ks.strings
    requires item !in ListAt(ks, IndexKey(prefix, kind))
    ensures RecordKey(prefix, kind, item) in DeleteKeys(ks, ClearedKeys(ks, prefix)).strings
  {
    var key := RecordKey(prefix, kind, item);
    if key in ClearedKeys(ks, prefix) {
      RecordKeyNotIndexKey(prefix, kind, AssessmentKind, item);
      RecordKeyNotIndexKey(prefix, kind, ScaleKind, item);
      RecordKeyNotIndexKey(prefix, kind, SessionKind, item);
      var other: Kind, id :| id in ListAt(ks, IndexKey(prefix, other)) && key == RecordKey(prefix, other, id);
      RecordKeyInjective(prefix, kind, item, other, id);
      assert false;
    }
  }

  /** A fault-free migration leaves each index holding the migrated entries in reverse input order, in front of what it held. */
  lemma {:induction false} MigratedIndexIsReversed(ks: KeySpace, prefix: string, kind: Kind, recs: seq<Record>, offset: nat)
    ensures ListAt(SaveAll(ks, prefix, kind, recs, [], offset), IndexKey(prefix, kind)) == Reverse(Items(recs)) + ListAt(ks, IndexKey(prefix, kind))
    decreases |recs|
  {
    if recs == [] {
      assert Reverse(Items(recs)) == [];
    } else {
      var n := |recs| - 1;
      var idx := IndexKey(prefix, kind);
      var x := ItemOf(recs[n]);
      var before := SaveAll(ks, prefix, kind, recs[..n], [], offset);
      MigratedIndexIsReversed(ks, prefix, kind, recs[..n], offset);
      SaveAllLast(ks, prefix, kind, recs, offset);
      SavePushesIndex(before, prefix, kind, ItemOf(recs[n]), recs[n]);
      ItemsSnoc(recs);
      ReversedStep(ListAt(ks, idx), Items(recs[..n]), x);
    }
  }


  /** A fault-free save puts its item at the front of its index. */
  lemma SavePushesIndex(ks: KeySpace, prefix: string, kind: Kind, item: string, rec: Record)
    ensures ListAt(SaveSpec(ks, prefix, kind, item, rec, NoFault), IndexKey(prefix, kind)) == [item] + ListAt(ks, IndexKey(prefix, kind))
  {
  }

  /** A fault-free batch is the batch without its last record, then that record's save. */
  lemma SaveAllLast(ks: KeySpace, prefix: string, kind: Kind, recs: seq<Record>, offset: nat)
    requires recs != []
    ensures var n := |recs| - 1;
            SaveAll(ks, prefix, kind, recs, [], offset) == SaveSpec(SaveAll(ks, prefix, kind, recs[..n], [], offset), prefix, kind, ItemOf(recs[n]), recs[n], NoFault)
  {
  }

}
