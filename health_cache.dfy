/**
 * The client hook's read cache and request coalescer (`useHealthStorage`).
 * Cached values carry the time they were fetched or written; a single
 * assessment is fresh for 10 minutes, a list for 2 minutes and the health
 * probe for 30 seconds, each with a strict `<`. Reads that miss the cache
 * register a flight key with the time they began; a read finding its key
 * pending joins that request, and settling a request always clears its key.
 */
module HealthCache {
  import opened Wrappers
  import opened Records
  import opened Seqs
  import opened Sorting

  const AssessmentTtl: int := 10 * 60 * 1000
  const ListTtl: int := 2 * 60 * 1000
  const HealthTtl: int := 30000
  const RecentLimit: nat := 30

  /** A cached value with the time it was stored under (`<key>-time`). */
  datatype Cached<T> = Cached(value: T, time: int)

  datatype ListKind = RecentAssessments | FatigueScales | ExerciseSessions

  /** `get:assessment:<user>:<date>[:force]` and `get:<list>:<user>`. */
  datatype FlightKey = AssessmentKey(user: string, date: string, force: bool) | ListKey(kind: ListKind, user: string)

  /** What a read does when called: answer at once, join a pending request, or start one. */
  datatype Begin<T> = Answered(value: T) | Joined(key: FlightKey) | Started(key: FlightKey)

  /** How a request settles: a response body's `data`, or an exception. */
  datatype Fetch<T> = Fetched(data: T) | FetchFailed

  /** How the health probe's request ends. */
  datatype Probe = Healthy(healthy: bool) | ProbeFailed

  datatype CacheState = CacheState(
    available: bool,
    user: Option<string>,
    health: map<string, Cached<bool>>,
    assessments: map<(string, string), Cached<DailyAssessment>>,
    lists: map<(ListKind, string), Cached<seq<Record>>>,
    inFlight: map<FlightKey, int>)

  /** The guard every operation starts with: the store is available and a user is signed in. */
  predicate Ready(s: CacheState) {
    s.available && s.user.Some?
  }

  predicate Fresh<T>(c: Cached<T>, now: int, ttl: int) {
    now - c.time < ttl
  }

  predicate AssessmentHit(s: CacheState, user: string, date: string, now: int) {
    (user, date) in s.assessments && Fresh(s.assessments[(user, date)], now, AssessmentTtl)
  }

  predicate ListHit(s: CacheState, kind: ListKind, user: string, now: int) {
    (kind, user) in s.lists && Fresh(s.lists[(kind, user)], now, ListTtl)
  }

  /** Recent assessments are returned latest date first, at most 30; the other lists as fetched. */
  function Shape(kind: ListKind, xs: seq<Record>): seq<Record> {
    if kind == RecentAssessments then Take(SortDesc(xs, RecordRank), RecentLimit) else xs
  }

  /** The health probe on mount: a fresh cached answer wins; otherwise the probe's answer is cached; a failed probe means unavailable. */
  function Initialize(s: CacheState, now: int, probe: Probe): CacheState {
    if s.user.None? then s
    else
      var u := s.user.value;
      if u in s.health && Fresh(s.health[u], now, HealthTtl) then s.(available := s.health[u].value)
      else
        match probe
        case Healthy(h) => s.(health := s.health[u := Cached(h, now)], available := h)
        case ProbeFailed => s.(available := false)
  }

  /** `saveDailyAssessment`: once the POST has gone out, the assessment is cached with the current time. */
  function SaveAssessment(s: CacheState, a: DailyAssessment, sent: bool, now: int): CacheState {
    if !Ready(s) || !sent then s
    else s.(assessments := s.assessments[(s.user.value, a.date) := Cached(a, now)])
  }

  /** `saveExerciseSession`: once the POST has gone out, the session is put in front of the cached list, stale or not. */
  function SaveExercise(s: CacheState, e: ExerciseSession, sent: bool, now: int): CacheState {
    if !Ready(s) || !sent then s
    else
      var k := (ExerciseSessions, s.user.value);
      var list := if k in s.lists then s.lists[k].value else [];
      s.(lists := s.lists[k := Cached([SessionRecord(e)] + list, now)])
  }

  /** The start of `getDailyAssessment(date, {forceRefresh: force})`. */
  function BeginAssessment(s: CacheState, date: string, force: bool, now: int): (CacheState, Begin<Option<DailyAssessment>>) {
    if !Ready(s) then (s, Answered(None))
    else
      var u := s.user.value;
      if !force && AssessmentHit(s, u, date, now) then (s, Answered(Some(s.assessments[(u, date)].value)))
      else
        var key := AssessmentKey(u, date, force);
        if key in s.inFlight then (s, Joined(key))
        else (s.(inFlight := s.inFlight[key := now]), Started(key))
  }

  /** The end of a started assessment read: a found record is cached with the start time, a null one evicts the entry. */
  function SettleAssessment(s: CacheState, key: FlightKey, outcome: Fetch<Option<DailyAssessment>>): (CacheState, Option<DailyAssessment>)
    requires key.AssessmentKey? && key in s.inFlight
  {
    var start := s.inFlight[key];
    var ck := (key.user, key.date);
    var s1 := s.(inFlight := s.inFlight - {key});
    match outcome
    case FetchFailed => (s1, None)
    case Fetched(data) =>
      if data.Some? then (s1.(assessments := s1.assessments[ck := Cached(data.value, start)]), data)
      else (s1.(assessments := s1.assessments - {ck}), None)
  }

  /** The start of a list read. */
  function BeginList(s: CacheState, kind: ListKind, now: int): (CacheState, Begin<seq<Record>>) {
    if !Ready(s) then (s, Answered([]))
    else
      var u := s.user.value;
      if ListHit(s, kind, u, now) then (s, Answered(Shape(kind, s.lists[(kind, u)].value)))
      else
        var key := ListKey(kind, u);
        if key in s.inFlight then (s, Joined(key))
        else (s.(inFlight := s.inFlight[key := now]), Started(key))
  }

  /** The end of a started list read: the fetched list is cached with the start time; a failure returns `[]`. */
  function SettleList(s: CacheState, key: FlightKey, outcome: Fetch<seq<Record>>): (CacheState, seq<Record>)
    requires key.ListKey? && key in s.inFlight
  {
    var start := s.inFlight[key];
    var s1 := s.(inFlight := s.inFlight - {key});
    match outcome
    case FetchFailed => (s1, [])
    case Fetched(data) => (s1.(lists := s1.lists[(key.kind, key.user) := Cached(data, start)]), Shape(key.kind, data))
  }

  /** The hook's state, updated step by step. */
  class HealthStorageClient {
    var available: bool
    var user: Option<string>
    var health: map<string, Cached<bool>>
    var assessments: map<(string, string), Cached<DailyAssessment>>
    var lists: map<(ListKind, string), Cached<seq<Record>>>
    var inFlight: map<FlightKey, int>

    function State(): CacheState
      reads this
    {
      CacheState(available, user, health, assessments, lists, inFlight)
    }

    /** Mounted with nothing cached, nothing pending and the store not yet known to be available. */
    constructor (user: Option<string>)
      ensures State() == CacheState(false, user, map[], map[], map[], map[])
    {
      available := false;
      this.user := user;
      health := map[];
      assessments := map[];
      lists := map[];
      inFlight := map[];
    }

    method InitializeStorage(now: int, probe: Probe)
      modifies this
      ensures State() == Initialize(old(State()), now, probe)
    {
      if user.None? {
        return;
      }
      var u := user.value;
      if u in health && now - health[u].time < HealthTtl {
        available := health[u].value;
        return;
      }
      match probe
      case Healthy(h) =>
        health := health[u := Cached(h, now)];
        available := h;
      case ProbeFailed =>
        available := false;
    }

    method SaveDailyAssessment(a: DailyAssessment, sent: bool, now: int)
      modifies this
      ensures State() == SaveAssessment(old(State()), a, sent, now)
    {
      if !available || user.None? || !sent {
        return;
      }
      assessments := assessments[(user.value, a.date) := Cached(a, now)];
    }

    /** Posts the scale; no cache is touched. */
    method SaveFatigueScale(x: FatigueScale, sent: bool)
      ensures State() == old(State())
    {
    }

    method SaveExerciseSession(e: ExerciseSession, sent: bool, now: int)
      modifies this
      ensures State() == SaveExercise(old(State()), e, sent, now)
    {
      if !available || user.None? || !sent {
        return;
      }
      var k := (ExerciseSessions, user.value);
      var list := if k in lists then lists[k].value else [];
      lists := lists[k := Cached([SessionRecord(e)] + list, now)];
    }

    method GetDailyAssessment(date: string, force: bool, now: int) returns (b: Begin<Option<DailyAssessment>>)
      modifies this
      ensures (State(), b) == BeginAssessment(old(State()), date, force, now)
    {
      if !available || user.None? {
        return Answered(None);
      }
      var u := user.value;
      if !force && (u, date) in assessments && now - assessments[(u, date)].time < AssessmentTtl {
        return Answered(Some(assessments[(u, date)].value));
      }
      var key := AssessmentKey(u, date, force);
      if key in inFlight {
        return Joined(key);
      }
      inFlight := inFlight[key := now];
      return Started(key);
    }

    method SettleDailyAssessment(key: FlightKey, outcome: Fetch<Option<DailyAssessment>>) returns (r: Option<DailyAssessment>)
      requires key.AssessmentKey? && key in inFlight
      modifies this
      ensures (State(), r) == SettleAssessment(old(State()), key, outcome)
    {
      var start := inFlight[key];
      var ck := (key.user, key.date);
      match outcome {
        case FetchFailed =>
          r := None;
        case Fetched(data) =>
          if data.Some? {
            assessments := assessments[ck := Cached(data.value, start)];
          } else {
            assessments := assessments - {ck};
          }
          r := data;
      }
      inFlight := inFlight - {key};
    }

    /** `getRecentAssessments`, `getFatigueScales` and `getExerciseSessions`. */
    method GetList(kind: ListKind, now: int) returns (b: Begin<seq<Record>>)
      modifies this
      ensures (State(), b) == BeginList(old(State()), kind, now)
    {
      if !available || user.None? {
        return Answered([]);
      }
      var u := user.value;
      if (kind, u) in lists && now - lists[(kind, u)].time < ListTtl {
        return Answered(Shape(kind, lists[(kind, u)].value));
      }
      var key := ListKey(kind, u);
      if key in inFlight {
        return Joined(key);
      }
      inFlight := inFlight[key := now];
      return Started(key);
    }

    method SettleListRead(key: FlightKey, outcome: Fetch<seq<Record>>) returns (r: seq<Record>)
      requires key.ListKey? && key in inFlight
      modifies this
      ensures (State(), r) == SettleList(old(State()), key, outcome)
    {
      var start := inFlight[key];
      match outcome {
        case FetchFailed =>
          r := [];
        case Fetched(data) =>
          lists := lists[(key.kind, key.user) := Cached(data, start)];
          r := Shape(key.kind, data);
      }
      inFlight := inFlight - {key};
    }
  }

  // ---------------------------------------------------------------------------
  // Properties

  /** Without an available store and a user, every operation answers empty and changes nothing. */
  lemma NotReadyChangesNothing(s: CacheState, date: string, force: bool, kind: ListKind, a: DailyAssessment, e: ExerciseSession, sent: bool, now: int)
    requires !Ready(s)
    ensures BeginAssessment(s, date, force, now) == (s, Answered(None))
    ensures BeginList(s, kind, now) == (s, Answered([]))
    ensures SaveAssessment(s, a, sent, now) == s
    ensures SaveExercise(s, e, sent, now) == s
  {
  }

  /** A single assessment is answered from the cache exactly when the read is not forced and the entry is under 10 minutes old. */
  lemma AssessmentAnsweredFromCacheIff(s: CacheState, date: string, force: bool, now: int)
    requires Ready(s)
    ensures BeginAssessment(s, date, force, now).1.Answered? <==> !force && AssessmentHit(s, s.user.value, date, now)
    ensures BeginAssessment(s, date, force, now).1.Answered? ==> BeginAssessment(s, date, force, now).0 == s
  {
  }

  /** A list is answered from the cache exactly when its entry is under 2 minutes old. */
  lemma ListAnsweredFromCacheIff(s: CacheState, kind: ListKind, now: int)
    requires Ready(s)
    ensures BeginList(s, kind, now).1.Answered? <==> ListHit(s, kind, s.user.value, now)
  {
  }

  /** While a read is pending, the same read joins it instead of starting another. */
  lemma PendingReadIsJoined(s: CacheState, date: string, force: bool, now: int, later: int)
    requires BeginAssessment(s, date, force, now).1.Started?
    requires force || !AssessmentHit(s, s.user.value, date, later)
    ensures var s1 := BeginAssessment(s, date, force, now).0;
            BeginAssessment(s1, date, force, later) == (s1, Joined(BeginAssessment(s, date, force, now).1.key))
  {
    var s1 := BeginAssessment(s, date, force, now).0;
    assert s1.assessments == s.assessments && s1.user == s.user && s1.available == s.available;
  }

  /** A forced read has its own flight key: starting one does not change what an unforced read does. */
  lemma ForcedReadDoesNotCoalesce(s: CacheState, date: string, now: int, later: int)
    requires BeginAssessment(s, date, true, now).1.Started?
    ensures BeginAssessment(BeginAssessment(s, date, true, now).0, date, false, later).1
            == BeginAssessment(s, date, false, later).1
  {
    var s1 := BeginAssessment(s, date, true, now).0;
    assert AssessmentKey(s.user.value, date, false) in s1.inFlight <==> AssessmentKey(s.user.value, date, false) in s.inFlight;
  }

  /** Settling clears the flight key whatever the outcome, and only that key. */
  lemma SettleClearsFlight(s: CacheState, key: FlightKey, outcome: Fetch<Option<DailyAssessment>>, list: FlightKey, listOutcome: Fetch<seq<Record>>)
    requires key.AssessmentKey? && key in s.inFlight
    requires list.ListKey? && list in s.inFlight
    ensures SettleAssessment(s, key, outcome).0.inFlight == s.inFlight - {key}
    ensures SettleList(s, list, listOutcome).0.inFlight == s.inFlight - {list}
  {
  }

  /** "Not found" is never cached: a null result evicts the entry, a failure leaves the cache alone, and a record is cached with the start time. */
  lemma SettleCachesOnlyRecords(s: CacheState, key: FlightKey, outcome: Fetch<Option<DailyAssessment>>)
    requires key.AssessmentKey? && key in s.inFlight
    ensures var (s1, r) := SettleAssessment(s, key, outcome);
            var ck := (key.user, key.date);
            (outcome == Fetched(None) ==> ck !in s1.assessments && r == None)
            && (outcome == FetchFailed ==> s1.assessments == s.assessments && r == None)
            && (outcome.Fetched? && outcome.data.Some? ==> s1.assessments[ck] == Cached(outcome.data.value, s.inFlight[key]) && r == outcome.data)
  {
  }

  /** After a save, an unforced read within 10 minutes returns the saved assessment without a request. */
  lemma SaveThenReadHitsCache(s: CacheState, a: DailyAssessment, now: int, later: int)
    requires Ready(s)
    requires later - now < AssessmentTtl
    ensures BeginAssessment(SaveAssessment(s, a, true, now), a.date, false, later) == (SaveAssessment(s, a, true, now), Answered(Some(a)))
  {
  }

  /** A descending sequence stays descending when cut short. */
  lemma SortedDescTake<T>(s: seq<T>, rank: T -> int, n: nat)
    requires SortedDesc(s, rank)
    ensures SortedDesc(Take(s, n), rank)
  {
    var t := Take(s, n);
    forall i, j | 0 <= i < j < |t| ensures rank(t[i]) >= rank(t[j]) {
      assert t[i] == s[i] && t[j] == s[j];
    }
  }

  /** Recent assessments come latest date first and at most 30, whether from the cache or from the network. */
  lemma RecentIsSortedAndBounded(s: CacheState, now: int, key: FlightKey, outcome: Fetch<seq<Record>>)
    requires key.ListKey? && key.kind == RecentAssessments && key in s.inFlight
    ensures var b := BeginList(s, RecentAssessments, now).1;
            b.Answered? ==> |b.value| <= RecentLimit && SortedDesc(b.value, RecordRank)
    ensures var r := SettleList(s, key, outcome).1;
            |r| <= RecentLimit && SortedDesc(r, RecordRank)
  {
    if Ready(s) && ListHit(s, RecentAssessments, s.user.value, now) {
      SortedDescTake(SortDesc(s.lists[(RecentAssessments, s.user.value)].value, RecordRank), RecordRank, RecentLimit);
    }
    if outcome.Fetched? {
      SortedDescTake(SortDesc(outcome.data, RecordRank), RecordRank, RecentLimit);
    }
  }

  /** Saving a session puts it in front of the cached list, or starts a one-element list, stamped with the current time. */
  lemma SaveExercisePrepends(s: CacheState, e: ExerciseSession, now: int)
    requires Ready(s)
    ensures var k := (ExerciseSessions, s.user.value);
            var s1 := SaveExercise(s, e, true, now);
            k in s1.lists && s1.lists[k].time == now
            && s1.lists[k].value == [SessionRecord(e)] + (if k in s.lists then s.lists[k].value else [])
            && s1.inFlight == s.inFlight && s1.assessments == s.assessments
  {
  }

  /** While the cached probe answer is under 30 seconds old, the probe's own answer is ignored. */
  lemma FreshProbeAnswerWins(s: CacheState, now: int, p1: Probe, p2: Probe)
    requires s.user.Some? && s.user.value in s.health && Fresh(s.health[s.user.value], now, HealthTtl)
    ensures Initialize(s, now, p1) == Initialize(s, now, p2)
    ensures Initialize(s, now, p1).available == s.health[s.user.value].value
  {
  }
}
