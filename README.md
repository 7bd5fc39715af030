# Thalassemia health tracker — a verified model of its data core

The application is a mobile-first tracker for people living with
thalassemia. Each day the user records a morning readiness assessment
(five slider ratings whose sum is the exercise readiness score), symptoms,
medical readings and an exercise session. From time to time the user also
answers two fatigue questionnaires, FSS and FACIT-F. The pages summarise
this data on a dashboard and a reports page.

The data lives in one of three stores:
- the browser's `localStorage` (`HealthStorage`);
- an older Vercel KV store (`HealthStorageKV`);
- a per-user Redis store (`HealthStorageRedis`). The browser reaches it through an HTTP route, behind a client hook that caches reads and merges concurrent ones.

Authentication is a second route over the same Redis server. It stores user records and session tokens. On the client, the session token and a cached copy of the user live in the browser storages.

This project restates that core in Dafny and proves properties of it:

- **Records**: the persisted records, their sort key, and the JavaScript array and string operations the code relies on:
  - `slice` with negative and zero arguments
  - a stable comparator sort
  - `LREM`-style removal
  - `toLowerCase` (for the Basic Latin and Latin-1 capitals), `trim` (over ECMAScript's whitespace and line terminators) and `padStart`
- **Stores**: the three stores as classes over their key spaces:
  - Each method is tied to a specification function of the old state.
  - Failures of the Redis or KV client are fault parameters. One says at which step an operation's exception is thrown; the listings also take one flag per index entry, set where that entry's read throws.
  - The lemmas cover:
    - key isolation: each instance writes only under its own `user:<id>:` prefix, and the prefixes of two different ids without `':'` share no key
    - index duplication and pruning
    - idempotent deletes
    - what a clear removes
    - how migrations and imports fill the indexes
    - the orders listings come back in
- **Connection and routes**:
  - the Redis connection manager, as a state machine;
  - the record route, as pure request dispatch;
  - the authentication route: login, register, verify and logout, with their checks and errors, over a store of users and sessions.
- **Client state**:
  - the client hook's cache, with its TTLs and in-flight request coalescing;
  - the session-recovery cache, with its two tiers;
  - the user manager's identity lookup.
- **Pages**: the logic of the five pages:
  - daily edits that keep the readiness score equal to the sum of its ratings;
  - FSS and FACIT-F scoring and banding;
  - the exercise stopwatch and its `MM:SS` stamps;
  - the saved session merged into today's assessment;
  - the reports' averages, counts and symptom tally;
  - the dashboard's week, statistics and colours.
- **Exercise library**: the constant exercise library and its three queries.

Clocks, random identifiers and the `KEYS` reply order are parameters. So are the outcomes of network and storage calls.

## Model

| member | source | states |
|---|---|---|
| Records.AssessmentRecords | lib/storage-redis.ts:242-244 | the assessments to migrate become records one for one, in order, each filed under its own date, the key the migrated index lists |
| Records.ScaleRecords | lib/storage-redis.ts:247-249 | the scales to migrate become records one for one, in order, each filed under its own id and dated by the scale |
| Records.SessionRecords | lib/storage-redis.ts:252-254 | the sessions to migrate become records one for one, in order, each filed under its own id and dated by the session |
| Records.Items | lib/storage-redis.ts:51 | the index entries of a list of records: each record's date or id, in order, so every record saved has its entry listed |
| Seqs.SliceIndex | lib/storage-kv.ts:73 | `slice`'s start index: a negative start counts back from the end and is clamped at 0; a positive one is clamped at the length |
| Seqs.Take | lib/useHealthStorage.ts:184 | `slice(0, n)` keeps the first `min(n, length)` elements |
| Seqs.SliceFromNegative | app/reports/page.tsx:30 | `slice(-n)` keeps the last `min(n, length)` elements in order |
| Seqs.SliceFromMinusZero | lib/storage-kv.ts:73 | `slice(-0)` keeps the whole sequence, not none of it |
| Seqs.Reverse | lib/storage-kv.ts:73 | `reverse` puts element `i` at position `length-1-i` |
| Seqs.ReverseSnoc | lib/storage-redis.ts:51 | reversing moves a last element to the front |
| Seqs.RemoveAll | lib/storage-redis.ts:102 | `LREM key 0 x` and `filter(s => s !== x)`: no `x` is left, every other value keeps its number of occurrences, and the length drops by the occurrences of `x` |
| Seqs.RemoveAllAbsent | lib/storage-redis.ts:102 | removing a value that does not occur changes nothing |
| Seqs.RemoveAllAppend | lib/storage-redis.ts:102 | removal distributes over concatenation, so order is kept |
| Seqs.RemoveAllIdempotent | lib/storage-redis.ts:102 | removing twice is removing once |
| Seqs.SumAppend | app/scales/page.tsx:103 | the sum distributes over concatenation |
| Seqs.SumBounds | app/scales/page.tsx:103 | a sum of `n` values in `[lo, hi]` lies in `[n*lo, n*hi]` |
| Sorting.Insert | lib/storage-redis.ts:91 | one insertion step: the length grows by one and the multiset gains exactly `x` |
| Sorting.InsertBounded | lib/storage-redis.ts:91 | an insertion step keeps a common upper bound on the rank |
| Sorting.InsertSorted | lib/storage-redis.ts:91 | inserting into a descending sequence keeps it descending |
| Sorting.SortDesc | lib/storage-redis.ts:91 | the date comparator sort yields a permutation of its input, in descending order of the key |
| Sorting.LeftOutRanksLower | app/reports/page.tsx:51-53 | in a descending list, an element past the first `n` ranks no higher than any of them |
| Sorting.PrefixOutranksRest | app/scales/page.tsx:67-71 | the first `n` of a descending arrangement stay descending and outrank every element left out |
| Strings.StartsWithPrefix | lib/storage-redis.ts:23 | a string that starts with `p + q` starts with `p` |
| Strings.StartsWithConcat | lib/storage-redis.ts:23 | `p + t` starts with `p`, and dropping `p` gives back `t` |
| Strings.ConcatInjective | lib/storage-redis.ts:23 | keys built on one prefix are equal only when their suffixes are |
| Strings.Lower | app/api/auth/route.ts:45 | `toLowerCase` maps each character on its own: same length, and each position holds its character's lower case |
| Strings.LowerIdempotent | app/api/auth/route.ts:199 | a lowercased username lowercases to itself |
| Strings.LowerIgnoresCase | app/api/auth/route.ts:45 | two names lower to the same key exactly when their characters agree position by position up to case |
| Strings.TrimStart | app/api/auth/route.ts:200 | leading whitespace is removed: the result is a suffix that does not start with whitespace, and every character removed is whitespace |
| Strings.TrimEnd | app/api/auth/route.ts:200 | trailing whitespace is removed: the result is a prefix that does not end with whitespace, and every character removed is whitespace |
| Strings.TrimmedHasNoOuterSpace | app/api/auth/route.ts:200 | a trimmed name neither starts nor ends with whitespace |
| Strings.NatToString | app/exercise/page.tsx:54 | `toString` of a natural number: at least one character, all decimal digits |
| Strings.ParseNatToString | app/exercise/page.tsx:54 | reading back the digits `toString` wrote gives the number |
| Strings.ParseLeadingZero | app/exercise/page.tsx:54 | a leading zero does not change the number |
| Strings.PadStart2 | app/exercise/page.tsx:54 | `padStart(2, '0')`: at least two characters, the original text at the end, zeros in front, never truncated |
| StorageLocal.FindFirst | lib/storage.ts:69 | `findIndex`: the first index satisfying the test, or -1 when none does |
| StorageLocal.HealthStorage.constructor | lib/storage.ts:56-58 | the two stored lists as found, and whether a `window` exists |
| StorageLocal.HealthStorage.GetDailyAssessments | lib/storage.ts:60-64 | the stored assessments, `[]` when absent or outside a browser |
| StorageLocal.HealthStorage.SaveDailyAssessment | lib/storage.ts:66-78 | the list becomes the upsert by date, and the scales are untouched; nothing happens outside a browser |
| StorageLocal.HealthStorage.GetDailyAssessment | lib/storage.ts:80-83 | the first stored assessment of that date, or none |
| StorageLocal.HealthStorage.GetFatigueScales | lib/storage.ts:85-89 | the stored scales, `[]` when absent or outside a browser |
| StorageLocal.HealthStorage.SaveFatigueScale | lib/storage.ts:91-103 | the list becomes the upsert by id, and the assessments are untouched |
| StorageLocal.HealthStorage.ExportData | lib/storage.ts:105-111 | the export holds both lists and the given time |
| StorageLocal.HealthStorage.ImportData | lib/storage.ts:113-126 | true exactly for parsed input that can be written; each present list overwrites its key only on success |
| StorageLocal.SaveExistingDateMergesInPlace | lib/storage.ts:68-73 | saving a stored date merges at that position, and the other entries and the length are unchanged |
| StorageLocal.MergeKeepsUnsetFields | lib/storage.ts:72 | the spread merge keeps every field the new record leaves unset and takes every field it sets |
| StorageLocal.SaveNewDateAppends | lib/storage.ts:74-76 | saving a new date appends the record |
| StorageLocal.SaveKeepsDatesUnique | lib/storage.ts:66-78 | a save keeps the stored dates pairwise distinct |
| StorageLocal.SaveThenGet | lib/storage.ts:66-83 | after a save, reading its date returns a record agreeing with it on every field it set |
| StorageLocal.ScaleSaveReplacesOrAppends | lib/storage.ts:91-103 | a scale save replaces the entry of its id whole or appends it; every other entry is unchanged |
| RedisBackend.DeleteKeys | lib/storage-redis.ts:298 | `DEL`: every named key is gone; every other key keeps its string value and its list |
| RedisBackend.Backend.constructor | lib/storage-redis.ts:26-28 | an empty key space |
| RedisBackend.Backend.SetEx | lib/storage-redis.ts:48 | `SETEX` writes the record at the key and leaves the lists alone |
| RedisBackend.Backend.Get | lib/storage-redis.ts:62 | `GET` answers the record at the key, or nothing |
| RedisBackend.Backend.LPush | lib/storage-redis.ts:51 | `LPUSH` puts the item in front of the list, duplicates included |
| RedisBackend.Backend.LRange | lib/storage-redis.ts:73 | `LRANGE 0 -1` answers the whole list, or `[]` |
| RedisBackend.Backend.LRem | lib/storage-redis.ts:102 | `LREM 0` removes every occurrence and keeps the rest in order |
| RedisBackend.Backend.Del | lib/storage-redis.ts:298 | `DEL` of several keys |
| RedisBackend.Backend.Expire | lib/storage-redis.ts:48 | the time-to-live running out removes the record key only |
| StorageRedis.KeysFor | lib/storage-redis.ts:292-294 | the record keys `clearAllData` builds from an index, one per entry, in order; StorageRedis.KeysForNames and ClearedKeysAreListed build on it |
| StorageRedis.HealthStorageRedis.constructor | lib/storage-redis.ts:20-24 | the prefix is `user:<id>:`, with `default_user` for a missing or empty id |
| StorageRedis.HealthStorageRedis.IsAvailable | lib/storage-redis.ts:30-39 | true exactly when neither getting the client nor the ping throws |
| StorageRedis.HealthStorageRedis.Save | lib/storage-redis.ts:42-57 | a save reports true exactly when nothing throws; the key space is `SETEX` then `LPUSH`, cut short where a fault strikes |
| StorageRedis.HealthStorageRedis.SaveAssessment | lib/storage-redis.ts:42-57 | a save of an assessment under its date |
| StorageRedis.HealthStorageRedis.SaveFatigueScale | lib/storage-redis.ts:111-126 | a save of a scale under its id |
| StorageRedis.HealthStorageRedis.SaveExerciseSession | lib/storage-redis.ts:180-193 | a save of a session under its id |
| StorageRedis.HealthStorageRedis.Get | lib/storage-redis.ts:59-68 | the stored record, or none when it is absent or the client throws |
| StorageRedis.HealthStorageRedis.GetAssessment | lib/storage-redis.ts:59-68 | the assessment stored for the date, or none |
| StorageRedis.HealthStorageRedis.GetFatigueScale | lib/storage-redis.ts:128-137 | the scale stored for the id, or none |
| StorageRedis.HealthStorageRedis.GetExerciseSession | lib/storage-redis.ts:195-204 | the session stored for the id, or none |
| StorageRedis.HealthStorageRedis.ReadEach | lib/storage-redis.ts:77-89 | the records of the listed entries in index order, each read through the per-entry getter, with misses and entries whose read throws dropped |
| StorageRedis.HealthStorageRedis.List | lib/storage-redis.ts:70-96 | the index's records, with misses and entries whose read throws dropped, sorted latest date first; `[]` when reading the index fails |
| StorageRedis.HealthStorageRedis.GetAssessments | lib/storage-redis.ts:70-96 | the listing of assessments; a throwing entry read drops only that entry |
| StorageRedis.HealthStorageRedis.GetFatigueScales | lib/storage-redis.ts:139-165 | the listing of scales; a throwing entry read drops only that entry |
| StorageRedis.HealthStorageRedis.GetExerciseSessions | lib/storage-redis.ts:206-224 | the listing of sessions; a throwing entry read drops only that entry |
| StorageRedis.HealthStorageRedis.Delete | lib/storage-redis.ts:98-108 | `DEL` then `LREM`; true whenever nothing throws, whether or not the record existed |
| StorageRedis.HealthStorageRedis.DeleteAssessment | lib/storage-redis.ts:98-108 | a delete of the date's assessment |
| StorageRedis.HealthStorageRedis.DeleteFatigueScale | lib/storage-redis.ts:167-177 | a delete of the id's scale |
| StorageRedis.HealthStorageRedis.DeleteExerciseSession | lib/storage-redis.ts:226-236 | a delete of the id's session |
| StorageRedis.HealthStorageRedis.SaveEach | lib/storage-redis.ts:241-254 | the saves of one list, in order, each with its own fault |
| StorageRedis.HealthStorageRedis.MigrateFromLocalStorage | lib/storage-redis.ts:239-260 | saves the assessments, then the scales, then the sessions, and reports true because each save swallows its failure |
| StorageRedis.HealthStorageRedis.SaveInTurn | lib/storage-redis.ts:239-260 | the three batches saved in turn, each fault counted from the start of the migration |
| StorageRedis.HealthStorageRedis.GetAllData | lib/storage-redis.ts:262-277 | the three listings, each `[]` when its own index read fails and each dropping the entries whose read throws |
| StorageRedis.ListedReadWithoutFailures | lib/storage-redis.ts:76-86 | with no entry read throwing, a listing is the fault-free one |
| StorageRedis.ResolveUnflaggedWithin | lib/storage-redis.ts:76-86 | dropping the entries whose read throws only ever removes records |
| StorageRedis.ListedReadWithinListed | lib/storage-redis.ts:76-93 | a listing with failing entry reads is contained, as a multiset, in the fault-free one |
| StorageRedis.ListedReadAllFailing | lib/storage-redis.ts:76-93 | when every entry read throws, the listing is empty |
| StorageRedis.HealthStorageRedis.ClearAllData | lib/storage-redis.ts:279-305 | deletes the three indexes and every record key they name, or nothing on a failure |
| StorageRedis.ClearedKeysAreListed | lib/storage-redis.ts:284-298 | the key list `clearAllData` builds names exactly the indexes and the keys they list |
| StorageRedis.KeysForNames | lib/storage-redis.ts:284-298 | the record keys built for a list of ids are exactly those ids' keys |
| StorageRedis.ResolveAppend | lib/storage-redis.ts:77-90 | resolving a concatenation of entries resolves each part |
| StorageRedis.KeysUnderUserPrefix | lib/storage-redis.ts:20-24 | every record and index key of an instance lies under `user:<id>:` |
| StorageRedis.RecordKeyInjective | lib/storage-redis.ts:45 | distinct kinds or entries give distinct record keys |
| StorageRedis.RecordKeyNotIndexKey | lib/storage-redis.ts:51 | no record key is an index key |
| StorageRedis.RecordKeyIsBasePlusItem | lib/storage-redis.ts:45 | a listing looks up the very key a save wrote |
| StorageRedis.SaveTwiceDuplicatesIndex | lib/storage-redis.ts:51 | saving the same record twice leaves its entry twice in the index |
| StorageRedis.ResolveCountsEntries | lib/storage-redis.ts:77-90 | a listing holds a stored record at least as often as the index names it |
| StorageRedis.DuplicateSaveListsTwice | lib/storage-redis.ts:42-96 | after two saves of one record, the listing shows it at least twice |
| StorageRedis.ResolveAllPresent | lib/storage-redis.ts:77-90 | when every entry is stored, the listing before sorting is the entries' records in index order |
| StorageRedis.ExpiryIsIndexRemoval | lib/storage-redis.ts:48 | an expired record drops out of the listing as if its entry had been pruned |
| StorageRedis.DeletePrunesIndex | lib/storage-redis.ts:98-108 | a delete removes the record and every occurrence of its entry, and nothing else of the index |
| StorageRedis.RemoveFromListIdempotent | lib/storage-redis.ts:102 | `LREM` twice is `LREM` once |
| StorageRedis.DeleteIdempotent | lib/storage-redis.ts:98-108 | deleting twice is deleting once |
| StorageRedis.DeleteMissingKeepsIndex | lib/storage-redis.ts:98-108 | deleting an unlisted entry keeps the index and still reports success |
| StorageRedis.SaveStaysInPrefix | lib/storage-redis.ts:42-57 | a save changes no key outside its user's prefix |
| StorageRedis.DeleteStaysInPrefix | lib/storage-redis.ts:98-108 | a delete changes no key outside its user's prefix |
| StorageRedis.ClearStaysInPrefix | lib/storage-redis.ts:279-305 | a clear changes no key outside its user's prefix |
| StorageRedis.UserPrefixesDisjoint | lib/storage-redis.ts:20-24 | no key lies under the prefixes of two different user ids that contain no `':'` |
| StorageRedis.OtherUsersUntouched | lib/storage-redis.ts:20-24 | what changes only under one user's prefix leaves every key of another user (ids without `':'`) as it was |
| StorageRedis.ColonIdsCollide | lib/storage-redis.ts:20-24 | with a `':'` in an id, user `a`'s record key for scale `fatigue_scales` is user `a:fatigue_scale`'s scale index key |
| StorageRedis.KeysUnderPrefix | lib/storage-redis.ts:45 | record and index keys start with the prefix |
| StorageRedis.ClearEmptiesListings | lib/storage-redis.ts:279-305 | after a clear every listing of the user is empty |
| StorageRedis.ClearKeepsUnindexedRecords | lib/storage-redis.ts:284-298 | a record missing from its index survives a clear |
| StorageRedis.MigratedIndexIsReversed | lib/storage-redis.ts:239-260 | a fault-free migration puts the entries in front of the index in reverse input order |
| StorageRedis.SaveAllLast | lib/storage-redis.ts:239-260 | a fault-free batch is the batch without its last record followed by that record's save |
| StorageRedis.SavePushesIndex | lib/storage-redis.ts:42-56 | a fault-free save puts its item at the front of its index |
| StorageKv.Kv.constructor | lib/storage-kv.ts:1 | an empty KV namespace |
| StorageKv.Kv.Set | lib/storage-kv.ts:50 | `kv.set` writes one key |
| StorageKv.Kv.Get | lib/storage-kv.ts:63 | `kv.get` answers the value or nothing |
| StorageKv.MigratedSessions | lib/storage-kv.ts:282-295 | each migrated session gets the fresh id at its position |
| StorageKv.HealthStorageKv.constructor | lib/storage-kv.ts:37-42 | the store over one KV namespace |
| StorageKv.HealthStorageKv.GetUserList | lib/storage-kv.ts:225-234 | the index array, or `[]` when it is absent or the read throws |
| StorageKv.HealthStorageKv.AddToUserList | lib/storage-kv.ts:236-249 | appends the item only when absent; a failed read counts as `[]` and a failed write changes nothing |
| StorageKv.HealthStorageKv.Save | lib/storage-kv.ts:47-58 | a failed record write is rethrown with its message; index failures are swallowed |
| StorageKv.HealthStorageKv.SaveDailyAssessment | lib/storage-kv.ts:47-58 | a save under `assessment:<date>` |
| StorageKv.HealthStorageKv.SaveFatigueScale | lib/storage-kv.ts:93-104 | a save under `fatigue:<id>` |
| StorageKv.HealthStorageKv.SaveExerciseSession | lib/storage-kv.ts:130-141 | a save under `exercise:<id>` |
| StorageKv.HealthStorageKv.GetDailyAssessment | lib/storage-kv.ts:60-68 | the stored assessment, or none when it is absent or the read throws |
| StorageKv.HealthStorageKv.FetchEach | lib/storage-kv.ts:110-118 | each entry's record in index order, misses skipped; nothing at all exactly when some entry read throws |
| StorageKv.HealthStorageKv.GetRecentAssessments | lib/storage-kv.ts:70-88 | the last `limit` entries, newest entry first; misses and entries whose read throws are dropped one by one |
| StorageKv.HealthStorageKv.GetFatigueScales | lib/storage-kv.ts:106-125 | every stored scale, latest date first; `[]` when the index read or any entry read throws |
| StorageKv.HealthStorageKv.GetExerciseSessions | lib/storage-kv.ts:143-162 | every stored session, latest date first; `[]` when the index read or any entry read throws |
| StorageKv.HealthStorageKv.ExportAllData | lib/storage-kv.ts:167-188 | at most 365 assessments, each throwing entry read dropping its entry, and every scale and session unless a read of that listing throws |
| StorageKv.HealthStorageKv.SaveEach | lib/storage-kv.ts:197-215 | saves in order and stops at the first that throws |
| StorageKv.HealthStorageKv.RunPhase | lib/storage-kv.ts:260-300 | one list of a migration: skipped, done, or aborted |
| StorageKv.HealthStorageKv.RunPhases | lib/storage-kv.ts:260-300 | assessments, then scales, then sessions; an aborted list stops the run |
| StorageKv.HealthStorageKv.ImportData | lib/storage-kv.ts:190-220 | saves the present lists in order; the first failure aborts with `Failed to import data` |
| StorageKv.HealthStorageKv.MigrateFromLocalStorage | lib/storage-kv.ts:254-303 | false outside a browser or on any failure; true when some local list was present and saved |
| StorageKv.HealthStorageKv.HealthCheck | lib/storage-kv.ts:308-317 | true exactly when the write and the read both succeed |
| StorageKv.ResolveAtMostEntries | lib/storage-kv.ts:76-84 | resolution never yields more records than entries |
| StorageKv.RecentAtMostLimit | lib/storage-kv.ts:73 | a positive limit bounds the number of recent assessments |
| StorageKv.RecentReadWithoutFailures | lib/storage-kv.ts:76-84 | with no entry read throwing, the recent assessments are the fault-free ones |
| StorageKv.RecentReadAtMostLimit | lib/storage-kv.ts:73-84 | entry read failures only shorten the result, so a positive limit still bounds it |
| StorageKv.RecentReadAllFailing | lib/storage-kv.ts:76-84 | when every looked-at entry read throws, the result is empty |
| StorageKv.ResolveUnflaggedStep | lib/storage-kv.ts:76-84 | reading one more entry adds its record unless the read throws or misses |
| StorageKv.RecentZeroLimitTakesWholeIndex | lib/storage-kv.ts:73 | a limit of 0 reads the whole index, newest entry first |
| StorageKv.ResolveAllPresent | lib/storage-kv.ts:76-84 | when every entry resolves, resolution is the records in entry order |
| StorageKv.RecentIsReverseInsertionOrder | lib/storage-kv.ts:73-84 | recent assessments come in reverse insertion order, not date order |
| StorageKv.RecordKeyNotIndexKey | lib/storage-kv.ts:39-42 | a record key is never an index key |
| StorageKv.AddToListKeepsNoDuplicates | lib/storage-kv.ts:236-249 | whatever fails, `addToUserList` keeps the index free of duplicates |
| StorageKv.IndexKeysDistinct | lib/storage-kv.ts:72 | the three kinds have distinct index keys |
| StorageKv.SaveKeepsNoDuplicates | lib/storage-kv.ts:47-58 | every save keeps every index free of duplicates |
| StorageKv.FailedReadOverwritesIndex | lib/storage-kv.ts:225-249 | a failed index read makes the save overwrite the index with the one new item |
| StorageKv.SaveExtendsIndex | lib/storage-kv.ts:236-249 | a fault-free save files its entry and keeps the earlier entries in order |
| StorageKv.SaveKeepsOtherIndex | lib/storage-kv.ts:47-58 | a save never touches another kind's index |
| StorageKv.SaveEachFaultFree | lib/storage-kv.ts:197-215 | without faults a batch runs to the end |
| StorageKv.SaveEachKeepsEntry | lib/storage-kv.ts:197-215 | without faults a batch drops no index entry |
| StorageKv.SaveEachCovers | lib/storage-kv.ts:197-215 | without faults a batch files every entry |
| StorageKv.SaveEachCoveredKeepsIndexes | lib/storage-kv.ts:236-249 | a batch of already-filed entries leaves every index as it was |
| StorageKv.PhaseFaultFree | lib/storage-kv.ts:260-300 | a present, parsed list is done and an absent one skipped |
| StorageKv.PhaseKeepsCovered | lib/storage-kv.ts:260-300 | a later list keeps the entries an earlier one filed |
| StorageKv.PhaseCovers | lib/storage-kv.ts:260-300 | a list's phase files its entries |
| StorageKv.PhaseCoveredKeepsIndexes | lib/storage-kv.ts:260-300 | a phase over filed entries changes no index |
| StorageKv.ImportCovers | lib/storage-kv.ts:190-220 | a fault-free import files every entry it was given |
| StorageKv.PhasesFaultFree | lib/storage-kv.ts:190-220 | with no fault and parsed lists, the import is the three list phases one after another |
| StorageKv.BatchesCoverFirst | lib/storage-kv.ts:190-220 | the entries filed by the first list stay filed after the other two |
| StorageKv.TwoBatchesCover | lib/storage-kv.ts:190-220 | a list files its entries and the list saved after it keeps them filed |
| StorageKv.ImportCoveredKeepsIndexes | lib/storage-kv.ts:190-220 | importing filed entries leaves every index as it was |
| StorageKv.BatchesKeepIndexes | lib/storage-kv.ts:190-220 | three phases over filed entries leave every index as it was |
| StorageKv.ImportRerunKeepsIndexes | lib/storage-kv.ts:190-220 | importing the same data twice leaves the indexes as the first import did |
| StorageKv.MigrateResult | lib/storage-kv.ts:254-303 | without faults, migration reports true exactly in a browser with some local list present |
| StorageKv.SaveEachKeepsOtherIndex | lib/storage-kv.ts:197-215 | a batch never touches another kind's index |
| StorageKv.SaveEachFreshAppends | lib/storage-kv.ts:236-249 | new distinct entries are appended to the index in order |
| StorageKv.SaveEachFiles | lib/storage-kv.ts:236-249 | saving a list adds each item to its index once, in order, skipping those already there |
| StorageKv.FiledFresh | lib/storage-kv.ts:236-249 | items new to the index and distinct are appended in order |
| StorageKv.BatchesAppendFresh | lib/storage-kv.ts:282-295 | after the assessments and scales, fresh sessions are appended to the session index |
| StorageKv.MigrateAppendsFreshSessions | lib/storage-kv.ts:282-295 | migrated sessions get fresh ids, so a second migration appends them again |
| RedisConnection.RedisConnectionManager.constructor | lib/redis-connection.ts:11-15 | a client is created up front only on the server with `REDIS_URL`; not connected, nothing pending |
| RedisConnection.RedisConnectionManager.ReconnectStrategy | lib/redis-connection.ts:21-28 | inside the cooldown it gives up without recording; otherwise it records the attempt and delays |
| RedisConnection.RedisConnectionManager.OnError | lib/redis-connection.ts:32-35 | the `error` event marks the manager disconnected |
| RedisConnection.RedisConnectionManager.OnConnect | lib/redis-connection.ts:37-40 | the `connect` event marks it connected |
| RedisConnection.RedisConnectionManager.GetClientStep | lib/redis-connection.ts:50-83 | throws in a browser; starts a connect only when neither connected nor connecting |
| RedisConnection.RedisConnectionManager.SettleConnectStep | lib/redis-connection.ts:65-75 | the pending connect settles; success marks the manager connected |
| RedisConnection.RedisConnectionManager.DisconnectStep | lib/redis-connection.ts:85-90 | only an open client is disconnected |
| RedisConnection.ManagerRegistry.constructor | lib/redis-connection.ts:4 | no instance yet |
| RedisConnection.ManagerRegistry.GetInstance | lib/redis-connection.ts:43-48 | the first call creates the single instance; later calls return it |
| RedisConnection.ReconnectDelayShape | lib/redis-connection.ts:27 | the delay lies in `[0, 3000]`, grows with the retry count, and is linear up to the cap |
| RedisConnection.StrategyCooldown | lib/redis-connection.ts:21-28 | the two branches of the strategy and what each records |
| RedisConnection.NoTwoRetriesWithinCooldown | lib/redis-connection.ts:23-26 | after a granted retry, every request in the next 5 seconds is refused |
| RedisConnection.BrowserTouchesNothing | lib/redis-connection.ts:51-53 | in a browser `getClient` throws before touching any state |
| RedisConnection.ConnectStartsOnce | lib/redis-connection.ts:64-80 | while a connect is pending, later callers await it |
| RedisConnection.SuccessfulConnectIsReused | lib/redis-connection.ts:66-70 | a successful connect leaves the manager connected, and later callers get the client at once |
| RedisConnection.FailedConnectIsRetried | lib/redis-connection.ts:71-75 | a failed connect leaves nothing pending, so the next caller starts over |
| RedisConnection.FailedConnectAfterConnectEvent | lib/redis-connection.ts:71-75 | a failure after the `connect` event leaves the manager marked connected |
| RedisConnection.DisconnectOnlyWhenOpen | lib/redis-connection.ts:85-90 | `disconnect` acts only on an open client and leaves it disconnected |
| RedisRoute.RouteUser | app/api/redis/route.ts:12 | the user is the header, or `default_user`, as the store's constructor decides |
| RedisRoute.GetRoute | app/api/redis/route.ts:4-48 | 503 when unavailable; a single assessment needs a non-empty id; a dispatch is for the header's user |
| RedisRoute.PostRoute | app/api/redis/route.ts:50-93 | an unreadable body is a 500, then 503; only save, migrate and clear dispatch |
| RedisRoute.DeleteRoute | app/api/redis/route.ts:95-129 | a missing type or id is a 400 before availability; a dispatch deletes the given id |
| RedisRoute.Answer | app/api/redis/route.ts:22-41 | reads answer data; the health check answers the second probe; writes answer success |
| RedisRoute.DefaultUserEverywhere | app/api/redis/route.ts:12 | no header means `default_user` in every handler |
| RedisRoute.GetAssessmentNeedsId | app/api/redis/route.ts:21-23 | a single assessment dispatches exactly when `id` is non-empty |
| RedisRoute.GetListDispatch | app/api/redis/route.ts:24-41 | each list type reaches its listing, `all` the full dump, `health-check` the probe |
| RedisRoute.TypeSpellingsDisjoint | app/api/redis/route.ts:24-31 | the plural GET types and the singular POST and DELETE types never overlap |
| RedisRoute.SaveAlwaysSucceeds | app/api/redis/route.ts:67-77 | a dispatched save answers success whatever the store reported |
| RedisRoute.UnavailableNeverDispatches | app/api/redis/route.ts:15-17 | with the store unavailable no handler dispatches |
| RedisRoute.UnmatchedIsBadRequest | app/api/redis/route.ts:44 | an unmatched action or type is a 400 |
| AuthRoute.FindUserById | app/api/auth/route.ts:96-124 | a user stored under a listed key with the id, no earlier listed key holding one, or none when no listed user has it |
| AuthRoute.FindUserByIdOverReply | app/api/auth/route.ts:104-118 | over a true `KEYS auth:user:*` reply, a user is found exactly when some stored user record has the id, and the one found is stored |
| AuthRoute.AuthStore.constructor | app/api/auth/route.ts:17-20 | an empty auth key space |
| AuthRoute.AuthStore.GetUser | app/api/auth/route.ts:40-52 | the record under the lowercased name, or none on any failure |
| AuthRoute.AuthStore.SaveUser | app/api/auth/route.ts:54-66 | writes the record for a year under the lowercased name |
| AuthRoute.AuthStore.CreateSession | app/api/auth/route.ts:68-81 | maps the token to the user id for 30 days |
| AuthRoute.AuthStore.GetSession | app/api/auth/route.ts:83-94 | the user id the token maps to |
| AuthRoute.AuthStore.GetUserById | app/api/auth/route.ts:96-124 | none when unavailable or reads fail; otherwise the first user in the `KEYS` reply's order with the id (FindUserById) |
| AuthRoute.AuthStore.DeleteSession | app/api/auth/route.ts:126-138 | deletes the session key; true whether or not it existed |
| AuthRoute.AuthStore.Post | app/api/auth/route.ts:141-272 | the whole POST handler: status, answer and writes |
| AuthRoute.AuthStore.Get | app/api/auth/route.ts:274-300 | the GET handler |
| AuthRoute.UserKeyNotSessionKey | app/api/auth/route.ts:45 | user keys and session keys never collide |
| AuthRoute.UserKeyIgnoresCase | app/api/auth/route.ts:45 | usernames differing in case share one record |
| AuthRoute.UserKeyInjective | app/api/auth/route.ts:45 | different lowercased names have different keys |
| AuthRoute.LoginOrder | app/api/auth/route.ts:154-182 | login checks missing fields, then an unknown user, then a wrong password; only full success writes a session for the stored user's id |
| AuthRoute.RegisterResult | app/api/auth/route.ts:184-226 | an existing name is refused without a write; success stores the lowercased name and trimmed name for a year and a session for 30 days |
| AuthRoute.RegisterRefusesOtherCase | app/api/auth/route.ts:191-195 | in any store holding a user under the name in another letter case, registering it is refused and nothing is written |
| AuthRoute.RegisterOverwritesOnReadFailure | app/api/auth/route.ts:191-211 | when reads fail, registering a taken name overwrites the existing record |
| AuthRoute.LoginThenVerify | app/api/auth/route.ts:154-252 | a login's session verifies to a user with the same id |
| AuthRoute.LogoutThenVerifyFails | app/api/auth/route.ts:254-263 | after logout the token no longer verifies |
| AuthRoute.PostErrorsFirst | app/api/auth/route.ts:141-151 | 500, then 503, then 400 for an unknown action, and none of them writes |
| AuthRoute.GetStatuses | app/api/auth/route.ts:274-300 | no token or an unknown session is a 401; a found user is the one the session names |
| HealthCache.HealthStorageClient.constructor | lib/useHealthStorage.ts:12-16 | nothing cached, nothing pending, availability not yet known |
| HealthCache.HealthStorageClient.InitializeStorage | lib/useHealthStorage.ts:33-85 | a fresh cached probe answer wins; otherwise the probe's answer is cached |
| HealthCache.HealthStorageClient.SaveDailyAssessment | lib/useHealthStorage.ts:96-115 | once the request is sent, the assessment is cached with the current time |
| HealthCache.HealthStorageClient.SaveFatigueScale | lib/useHealthStorage.ts:217-229 | posts the scale and touches no cache |
| HealthCache.HealthStorageClient.SaveExerciseSession | lib/useHealthStorage.ts:273-295 | puts the session in front of the cached list |
| HealthCache.HealthStorageClient.GetDailyAssessment | lib/useHealthStorage.ts:117-141 | answers from a fresh cache entry, joins a pending request, or starts one |
| HealthCache.HealthStorageClient.SettleDailyAssessment | lib/useHealthStorage.ts:142-165 | the end of a started assessment read |
| HealthCache.HealthStorageClient.GetList | lib/useHealthStorage.ts:170-191 | the start of a list read |
| HealthCache.HealthStorageClient.SettleListRead | lib/useHealthStorage.ts:192-211 | the end of a started list read |
| HealthCache.NotReadyChangesNothing | lib/useHealthStorage.ts:118 | with no store or no user every operation answers empty and changes nothing |
| HealthCache.AssessmentAnsweredFromCacheIff | lib/useHealthStorage.ts:124-135 | the cache answers exactly for an unforced read of an entry under 10 minutes old |
| HealthCache.ListAnsweredFromCacheIff | lib/useHealthStorage.ts:177-186 | a list is answered from the cache exactly when it is under 2 minutes old |
| HealthCache.PendingReadIsJoined | lib/useHealthStorage.ts:138-140 | a pending read is joined, not repeated |
| HealthCache.ForcedReadDoesNotCoalesce | lib/useHealthStorage.ts:138 | a forced read has its own flight key |
| HealthCache.SettleClearsFlight | lib/useHealthStorage.ts:162-164 | settling clears exactly its flight key |
| HealthCache.SettleCachesOnlyRecords | lib/useHealthStorage.ts:149-158 | "not found" is never cached |
| HealthCache.SaveThenReadHitsCache | lib/useHealthStorage.ts:96-131 | within 10 minutes of a save, an unforced read returns the saved assessment without a request |
| HealthCache.SortedDescTake | lib/useHealthStorage.ts:183-184 | a descending list stays descending when cut short |
| HealthCache.RecentIsSortedAndBounded | lib/useHealthStorage.ts:170-214 | recent assessments come latest first and at most 30, from the cache or the network |
| HealthCache.SaveExercisePrepends | lib/useHealthStorage.ts:283-291 | a saved session goes in front of the cached list, stamped with the current time |
| HealthCache.FreshProbeAnswerWins | lib/useHealthStorage.ts:43-55 | a cached probe answer under 30 seconds old overrides the probe |
| BrowserStorage.GetTruthy | lib/session-recovery.ts:48-50 | a key read as present only when its value is a non-empty string |
| BrowserStorage.Browser.constructor | lib/session-recovery.ts:19 | the two storages as given |
| SessionRecovery.ReadTier | lib/session-recovery.ts:48-77 | a tier yields a user exactly when both keys are set, the timestamp is younger than the limit and the user parses |
| SessionRecovery.CacheUserSpec | lib/session-recovery.ts:85-100 | the same user and the same time are written to both tiers |
| SessionRecovery.ClearedSession | lib/session-recovery.ts:112-122 | `sessionStorage` keeps everything except the cache keys and the `health-check-` keys |
| SessionRecovery.HasValidToken | lib/session-recovery.ts:23-25 | true exactly for a non-empty stored token |
| SessionRecovery.GetToken | lib/session-recovery.ts:30-32 | the stored token, if any |
| SessionRecovery.StoreToken | lib/session-recovery.ts:37-39 | writes the token and nothing else |
| SessionRecovery.ReadTierOf | lib/session-recovery.ts:48-77 | one tier's read |
| SessionRecovery.GetCachedUser | lib/session-recovery.ts:44-80 | the session tier first, then the local one; a fresh tier that does not parse is removed |
| SessionRecovery.CacheUser | lib/session-recovery.ts:85-100 | caches the user in both tiers |
| SessionRecovery.TimeKeyKeepsPrefix | lib/session-recovery.ts:115-120 | a `health-check-` key's `-time` companion is a `health-check-` key too |
| SessionRecovery.ClearSession | lib/session-recovery.ts:105-123 | removes the token, the four cache keys and the health-check keys |
| SessionRecovery.ShouldRecoverSession | lib/session-recovery.ts:129-131 | reads the cache only when a token is present |
| SessionRecovery.PrepareForNavigation | lib/session-recovery.ts:136-140 | caches a given user; does nothing for none |
| SessionRecovery.CachedUserLifetime | lib/session-recovery.ts:53-69 | a cached user is read from the session tier for 10 minutes, from the local tier until the hour, then not at all |
| SessionRecovery.SessionTierPreferred | lib/session-recovery.ts:48-61 | a fresh, parsing session tier wins |
| SessionRecovery.CorruptSessionTierRemoved | lib/session-recovery.ts:55-59 | a fresh session tier that does not parse loses both keys, and the local tier is consulted |
| SessionRecovery.StaleEntriesKept | lib/session-recovery.ts:44-80 | stale entries stay where they are |
| SessionRecovery.ClearSessionForgetsUser | lib/session-recovery.ts:105-123 | after a clear there is no token and no cached user, and other keys keep their values |
| SessionRecovery.ShouldRecoverIff | lib/session-recovery.ts:129-131 | recovery happens exactly with a token and a cached user |
| SessionRecovery.PreparedSessionRecovers | lib/session-recovery.ts:136-140 | preparing with a user makes recovery succeed while the token stays |
| UserManager.CurrentUserSpec | lib/user.ts:35-48 | the user is present exactly when the entry parses; an entry that does not parse is removed |
| UserManager.UserIdSpec | lib/user.ts:12-30 | `default_user` outside a browser |
| UserManager.GetCurrentUser | lib/user.ts:35-48 | the stored user, if it parses |
| UserManager.GetUserId | lib/user.ts:12-30 | the stored user's id, `anonymous_user`, or `default_user` |
| UserManager.IsAuthenticated | lib/user.ts:53-55 | signed in exactly when a current user is found |
| UserManager.GetUserPrefix | lib/user.ts:60-62 | `user:<id>:` |
| UserManager.ClearUser | lib/user.ts:67-70 | removes the current-user key in a browser |
| UserManager.UserIdCases | lib/user.ts:12-30 | the three cases of the id |
| UserManager.AuthenticatedIffStoredUser | lib/user.ts:53-55 | signed in exactly when a stored user parses; otherwise the id is anonymous |
| UserManager.ClearedUserIsAnonymous | lib/user.ts:67-70 | after clearing, the id is anonymous and nobody is signed in |
| UserManager.CurrentUserStable | lib/user.ts:35-48 | reading twice gives the same answer |
| DailyPage.UpdateMorning | app/daily/page.tsx:59-70 | the field takes the value, the score becomes the ratings' sum, and everything else is kept |
| DailyPage.UpdateSymptoms | app/daily/page.tsx:72-85 | ticking appends; unticking removes every occurrence and keeps the others' counts |
| DailyPage.UpdateMedical | app/daily/page.tsx:87-95 | only the named reading changes |
| DailyPage.InitialAssessment | app/daily/page.tsx:22-41 | today's date, a morning part whose score is the ratings' sum, no session and no symptoms |
| DailyPage.InitialScoreIsSum | app/daily/page.tsx:22-41 | the starting assessment already has score equal to the sum |
| DailyPage.EditsKeepScoreIsSum | app/daily/page.tsx:59-70 | any run of slider edits keeps the score equal to the sum |
| DailyPage.ScoreRange | app/daily/page.tsx:61-64 | with ratings in 1..10 the score lies in `[5, 50]` |
| DailyPage.TickThenUntick | app/daily/page.tsx:72-85 | ticking then unticking leaves none of the symptom and the rest as before |
| DailyPage.ColorAndTextAgree | app/daily/page.tsx:107-119 | the colour and the text of a score come from one band, and the bands are `[40,∞)`, `[30,40)`, `[20,30)` and below 20 |
| DailyPage.ReadinessColor | app/daily/page.tsx:107-112 | green, yellow, orange or red exactly for the score's band |
| DailyPage.ReadinessText | app/daily/page.tsx:114-119 | the ready text exactly from 40 and the rest text exactly below 20 |
| DailyPage.BandOf | app/daily/page.tsx:107-119 | the ready band exactly from 40, the rest band exactly below 20, the two middle bands between |
| FatigueScalesPage.FirstOfType | app/scales/page.tsx:83-84 | `find` by type: the first scale of the type, or none |
| FatigueScalesPage.ScalesPage.constructor | app/scales/page.tsx:50-54 | nine FSS sliders at 1, thirteen FACIT-F sliders at 0, nothing loaded |
| FatigueScalesPage.ScalesPage.LoadScales | app/scales/page.tsx:58-100 | the newest ten scales, today's flags, and sliders from the latest submissions |
| FatigueScalesPage.ScalesPage.SaveFss | app/scales/page.tsx:134-158 | nothing when today's FSS is in; otherwise a scale with the average as its total, appended to the recent list |
| FatigueScalesPage.ScalesPage.SaveFacit | app/scales/page.tsx:160-184 | the same for FACIT-F, with its total |
| FatigueScalesPage.FssAverage | app/scales/page.tsx:103-104 | `NaN` exactly for no scores; otherwise the average, which times the item count gives the sum |
| FatigueScalesPage.FssInterpretation | app/scales/page.tsx:106-110 | one of the four FSS labels; "Minimal fatigue" exactly for `NaN` or an average below 3.5 |
| FatigueScalesPage.CalculateFss | app/scales/page.tsx:102-113 | the total is `NaN` exactly for no scores; answers on the 1..7 scale give a total in `[1, 7]` |
| FatigueScalesPage.FssAverageRange | app/scales/page.tsx:102-104 | answers on the 1..7 scale average to a value in `[1, 7]` |
| FatigueScalesPage.FacitTotal | app/scales/page.tsx:115-123 | with scores in 0..4, the total of n items lies in `[0, 4n]` |
| FatigueScalesPage.CalculateFacit | app/scales/page.tsx:115-132 | the accumulated total and its band |
| FatigueScalesPage.Threshold | app/scales/page.tsx:107-109 | comparing the average with a threshold is comparing the sum with threshold times count |
| FatigueScalesPage.FssTotalIsAverage | app/scales/page.tsx:102-113 | the FSS "total" is the average: times the count it gives the sum |
| FatigueScalesPage.FssBands | app/scales/page.tsx:106-110 | the FSS bands at 5.5, 4.5 and 3.5 as integer tests on the sum |
| FatigueScalesPage.FacitReverseItemsAre6And7 | app/scales/page.tsx:26-38 | only questions 6 and 7 are scored as given |
| FatigueScalesPage.FacitTotalRange | app/scales/page.tsx:115-123 | with scores in 0..4 the total lies in `[0, 4n]`, `[0, 52]` for thirteen |
| FatigueScalesPage.FacitTotalUpdate | app/scales/page.tsx:117-123 | changing one score changes the total by that item's contribution only |
| FatigueScalesPage.FacitMonotone | app/scales/page.tsx:118-122 | a higher score lowers the total on a reversed-scored item and raises it on a direct one |
| FatigueScalesPage.InitialScores | app/scales/page.tsx:51-52 | the initial sliders mean minimal fatigue on both scales |
| FatigueScalesPage.LoadedFlags | app/scales/page.tsx:74-80 | the flags say whether a scale of the type is dated today |
| FatigueScalesPage.LoadedRecentIsNewestTen | app/scales/page.tsx:67-71 | the loaded recent list is the newest ten, newest first |
| FatigueScalesPage.AppendRecentKeepsTen | app/scales/page.tsx:152 | after a save the list ends with the new scale and holds at most ten |
| ExercisePage.FormatTime | app/exercise/page.tsx:51-55 | the stamp is digits, a colon three from the end, and digits |
| ExercisePage.Stamp | app/exercise/page.tsx:51-55 | minutes and seconds below 60 print as digits around a colon three from the end |
| ExercisePage.NatToStringShort | app/exercise/page.tsx:54 | numbers below 100 print with at most two digits |
| ExercisePage.PadKeepsValue | app/exercise/page.tsx:54 | padding with zeros keeps the value |
| ExercisePage.FormatTimeRoundTrip | app/exercise/page.tsx:51-55 | reading the stamp back gives the elapsed seconds: two-digit seconds below 60, untruncated minutes |
| ExercisePage.StampReadsBack | app/exercise/page.tsx:51-55 | the stamp reads back as the minutes before the colon and the two-digit seconds after it |
| ExercisePage.StampSplits | app/exercise/page.tsx:51-55 | the stamp splits at its colon into the two padded fields |
| ExercisePage.ParsePadded | app/exercise/page.tsx:54 | a zero-padded number is all digits and reads back as itself |
| ExercisePage.FormatTimeWidth | app/exercise/page.tsx:51-55 | under 100 minutes the stamp is exactly `MM:SS` |
| ExercisePage.InitialSession | app/exercise/page.tsx:15-35 | the clock's `HH:MM` and an empty interval list |
| ExercisePage.SessionDay | app/exercise/page.tsx:81-92 | today's entry with the session set |
| ExercisePage.Page.constructor | app/exercise/page.tsx:14-39 | the initial page state |
| ExercisePage.Page.Tick | app/exercise/page.tsx:41-49 | the stopwatch counts only while exercising |
| ExercisePage.Page.SetReadings | app/exercise/page.tsx:38-39 | the RPE and talk-test controls |
| ExercisePage.Page.StartExercise | app/exercise/page.tsx:57-60 | starts the stopwatch and shows the during tab |
| ExercisePage.Page.StopExercise | app/exercise/page.tsx:62-65 | pauses without resetting and shows the post tab |
| ExercisePage.Page.RecordInterval | app/exercise/page.tsx:67-79 | appends one entry stamped with the stopwatch, the RPE and the talk test |
| ExercisePage.Page.SaveSession | app/exercise/page.tsx:81-92 | merges the session into today's stored assessment |
| ExercisePage.SavedSessionIsFound | app/exercise/page.tsx:81-92 | after the save, today's entry is the stored day with exactly its session replaced |
| ExercisePage.SameDateIndex | lib/storage.ts:69 | lists matching a date at the same places find it at the same place |
| ExercisePage.SaveSessionKeepsOtherDays | app/exercise/page.tsx:81-92 | saving a session leaves every other date's entry as it was |
| Reports.LastN | app/reports/page.tsx:30 | `slice(-n)`: the last `min(n, length)` elements |
| Reports.Last30 | app/reports/page.tsx:30 | the last `min(30, n)` days, in order |
| Reports.Average | app/reports/page.tsx:31-33 | 0 for no days; otherwise the integer nearest the mean of the field, halves up |
| Reports.AverageTenths | app/reports/page.tsx:35-37 | 0 for no days; otherwise ten times the mean, rounded to the nearest integer, halves up |
| Reports.RoundedMeanNearest | app/reports/page.tsx:31-33 | `Math.round` of the mean is the nearest integer, halves up |
| Reports.TotalBounds | app/reports/page.tsx:32 | a total of values in `[lo, hi]` lies in `[n*lo, n*hi]` |
| Reports.MeanWithinBounds | app/reports/page.tsx:31-33 | rounding never leaves the range of the values |
| Reports.AverageReadinessRange | app/reports/page.tsx:31-33 | the average readiness lies in `[0, 50]`, and is 0 with no days |
| Reports.AverageOfConstant | app/reports/page.tsx:31-37 | the average of equal values is that value |
| Reports.SessionCount | app/reports/page.tsx:39 | counts days with a session: none exactly when no day has one, all exactly when every day has one |
| Reports.SessionCountAppend | app/reports/page.tsx:39 | counting splits over concatenation |
| Reports.OfType | app/reports/page.tsx:41-42 | exactly the questionnaires of that type, ending with the last stored one when it has that type |
| Reports.OfTypeAppend | app/reports/page.tsx:41-42 | the filter keeps the stored order: filtering a concatenation concatenates the filters |
| Reports.OfTypeIdempotent | app/reports/page.tsx:41-42 | filtering twice by the same type changes nothing more |
| Reports.RecentOfTypeIsLatest | app/reports/page.tsx:41-42 | the last `min(5, n)` questionnaires of that type, in stored order, ending with the latest stored |
| Reports.RecentOfType | app/reports/page.tsx:41-42 | at most five stored questionnaires, all of that type |
| Reports.AllSymptoms | app/reports/page.tsx:44-45 | a symptom is listed exactly when some day lists it |
| Reports.KeyIndex | app/reports/page.tsx:46 | a key's position in the tally, or the end |
| Reports.TallyAddCounts | app/reports/page.tsx:46-47 | one occurrence adds one to exactly its own count |
| Reports.TallyAddSum | app/reports/page.tsx:46-47 | one occurrence adds one to the counts' sum |
| Reports.CountSumUpdate | app/reports/page.tsx:46 | replacing an entry changes the sum by the difference |
| Reports.CountSumAppend | app/reports/page.tsx:46 | appending an entry adds its count |
| Reports.TallyCountsOccurrences | app/reports/page.tsx:44-49 | the tally maps each symptom to its number of occurrences, once per symptom, and the counts add up to the entries |
| Reports.Tally | app/reports/page.tsx:44-49 | no more entries than symptoms listed, each keyed by a listed symptom |
| Reports.TopOfIsTop | app/reports/page.tsx:51-53 | at most five entries from the tally, non-increasing, and no entry left out outranks one kept |
| Reports.TopSymptoms | app/reports/page.tsx:43-53 | at most five symptom entries, by non-increasing count |
| Reports.PrefixOfSorted | app/reports/page.tsx:51-53 | a prefix of a ranked tally is drawn from it, stays ranked, and outranks what it leaves out |
| Dashboard.Weekly | app/page.tsx:95 | the first seven of a newest-first list |
| Dashboard.WeeklyAsWritten | app/page.tsx:95 | `slice(-7)`: the last `min(7, n)` entries, in order |
| Dashboard.WeeklyAsWrittenMissesNewest | app/page.tsx:95 | the page's `slice(-7)` leaves out the newest day of a longer newest-first list |
| Dashboard.WeeklyCounterexample | app/page.tsx:95 | eight days newest first: the page keeps days 7..1 and drops day 8 |
| Dashboard.WeeklyIsNewest | app/page.tsx:95 | the corrected week holds the newest days |
| Dashboard.StatsOf | app/page.tsx:115-150 | over any week the session count is at most the number of days; everything is 0 for an empty week |
| Dashboard.StatsBounds | app/page.tsx:115-150 | over any week the readiness average lies in `[0, 50]`; the count equals the week's length exactly when every day has a session |
| Dashboard.CardStatsAsWritten | app/page.tsx:95-150 | the page's card, over its `slice(-7)`: every day counted exactly when each of the oldest `min(7, n)` days has a session |
| Dashboard.CardStats | app/page.tsx:95-150 | the card over the newest seven days: every day counted exactly when each of the newest `min(7, n)` days has a session |
| Dashboard.ColorFollowsDailyBands | app/page.tsx:106-112 | a non-zero score gets the daily page's band colour; gray exactly for no score or zero |
| Dashboard.TodayCardIffColored | app/page.tsx:163 | the card is shown exactly when today's score is not gray |
| Dashboard.ReadinessColor | app/page.tsx:106-112 | one of the five colour classes, gray exactly for an absent or zero score |
| Dashboard.TodayScore | app/page.tsx:163 | present exactly when today's assessment has a morning part, and then its readiness score |
| ExerciseLibrary.WithCategory | lib/exercises.ts:446-448 | a filter by category: an entry is returned exactly when it is in the list with that category |
| ExerciseLibrary.WithIntensity | lib/exercises.ts:450-452 | a filter by intensity: an entry is returned exactly when it is in the list with that intensity |
| ExerciseLibrary.GetExercisesByCategory | lib/exercises.ts:446-448 | exactly the library's exercises of that category |
| ExerciseLibrary.GetExercisesByIntensity | lib/exercises.ts:450-452 | exactly the library's exercises of that intensity |
| ExerciseLibrary.IdIndex | lib/exercises.ts:455 | `find` by id: the first entry with the id |
| ExerciseLibrary.GetExerciseById | lib/exercises.ts:454-456 | a found entry is in the library with the id; none exactly when no entry has it |
| ExerciseLibrary.WithCategoryAppend | lib/exercises.ts:446-448 | the filter keeps the library's order |
| ExerciseLibrary.CategoriesPartition | lib/exercises.ts:4 | the three categories split any list |
| ExerciseLibrary.CategoriesCoverLibrary | lib/exercises.ts:18-448 | the three category queries together return every entry once |
| ExerciseLibrary.CategoryQueriesDisjoint | lib/exercises.ts:446-448 | no entry answers two category queries, and other strings answer none |
| ExerciseLibrary.LibraryIdsDistinct | lib/exercises.ts:18-444 | the library's ids are pairwise distinct |
| ExerciseLibrary.ByIdIsUnique | lib/exercises.ts:454-456 | the entry found by id is the only one with it |
| ExerciseLibrary.AllLight | lib/exercises.ts:18-452 | every entry is light: `light` yields the whole library in order, the other intensities nothing |
| ExerciseLibrary.AllLightFrom | lib/exercises.ts:450-452 | a list of light entries filters to itself |
| ExerciseLibrary.TargetRpeWellFormed | lib/exercises.ts:12 | every target RPE list is non-empty, increasing and within 0..10 |

## Left out

- Network, JSON serialisation and the browser's storage quota are not modelled. Stored JSON is assumed to round-trip. Request and storage outcomes are parameters: a fault, a parse result or a probe answer.
- Clocks (`Date.now()`, `toISOString`, `toTimeString`) and random ids are parameters.
- The `KEYS auth:user:*` reply is a parameter, its order included, as is the Redis time-to-live expiry. Expiry is a separate `Expire` step, not a clock.
- The application shell, page rendering and alerts are not modelled. Examples are the dashboard's `toLocaleDateString` and the reports' energy trend chart (`slice(-14)`).
- The reports' JSON download (Blob, link click) is not modelled.
- Concurrency is modelled as explicit begin and settle steps. Promise scheduling itself is not.
- The exercise page's `setInterval` scheduling is not modelled. `Tick` is one firing of it.
- `HealthStorageRedis.disconnect` has an empty body and is not modelled. The process signal handlers of the connection manager are left out as well.
- The hook's `exportAllData` and `getStorageStatus` only forward to routes and are not modelled.
- The hook's `getFatigueScales` and `getExerciseSessions` share the list model with `getRecentAssessments`. Only the recent assessments are sorted and cut to 30.
- The reports' averages (`Math.round(x / n * 10) / 10`) are modelled as exact rational rounding counted in tenths. Floating-point error is not modelled.
- FSS averages are real numbers; `NaN` for no scores is `None`.
- `Object.entries` puts integer-like keys first. This is not modelled: symptom keys keep insertion order.
- JavaScript's sort is modelled as a stable insertion sort. Stability itself is not stated.
- Dates are ordered by the number their digits form. That agrees with `new Date(d).getTime()` for well-formed `YYYY-MM-DD` dates only.
- The exercise library's descriptive text lists (equipment, instructions, modifications, considerations, contraindications) and video links are not modelled.
- The exact contents of each category query are not stated. Only membership, order, the partition of the library and `AllLight` are.
- Browser storage values are one of three kinds: a serialised user, a timestamp, or other text. A parsed object that is not a user is not distinguished.
- FatigueScalesPage.ScalesPage.SaveFacit: requires at most thirteen scores, because `calculateFACIT` reads `facitQuestions[index].reverse` and throws past the thirteenth question.
- DailyPage.UpdateMorning: requires a morning assessment. The source spreads `assessment.morningAssessment!`, and every path to the page (its initial state, or a loaded assessment the page itself saved) carries one.
- AuthRoute.AuthStore.Post: one fault holds for the whole request, instead of a separate outcome for each client call.
- AuthRoute.AuthStore.Post: the generated id, the time and the session token are parameters.
- AuthRoute.AuthStore.Post: the plaintext password comparison is modelled as written.
- RedisRoute.GetRoute: models the dispatch only. The operations are the store's.
- StorageRedis.HealthStorageRedis.List: the `Promise.all` fan-out is sequential in the model. The order of the result is the same.
- Strings.Lower: case mapping covers the Basic Latin and Latin-1 capitals only. The rest of Unicode's case mapping is not modelled, nor mappings that change the length (`'İ'.toLowerCase()` has two code units).
- Strings.LowerIgnoresCase: "up to case" means up to the modelled case mapping of `Strings.Lower`.
- AuthRoute.UserKeyIgnoresCase: holds for names equal under the modelled case mapping of `Strings.Lower`, not under full Unicode lowercasing.
- AuthRoute.AuthStore.GetUserById: the `KEYS` reply is a parameter, not derived from the store. AuthRoute.FindUserByIdOverReply states what the scan finds when the reply is the true one (AuthRoute.KeysReply).
- StorageRedis.UserPrefixesDisjoint: holds for user ids without `':'` only. The route takes any `x-user-id` header (app/api/redis/route.ts:11), and with a `':'` in an id, one user's record key can be another user's index key (StorageRedis.ColonIdsCollide).
- AuthRoute.RegisterRefusesOtherCase: holds for names equal under the modelled case mapping of `Strings.Lower`, not under full Unicode lowercasing.
- Strings are sequences of Unicode scalar values. JavaScript's UTF-16 code units and surrogate pairs are not modelled.
- The daily page reads `storage` from the hook (app/daily/page.tsx:20), but the hook's result (lib/useHealthStorage.ts:355-377) has no such field. As written, its load and save calls (app/daily/page.tsx:48, :99) would throw a `TypeError`; the save's is caught and alerted. This is not executed, and neither call is modelled.
- RedisConnection.RedisConnectionManager.ReconnectStrategy: `Date.now()` is the `now` parameter.

## Findings

| source | as written | input that shows it | evidently intended | confidence | as-written member | corrected member |
|---|---|---|---|---|---|---|
| app/page.tsx:95 | `assessments.slice(-7)` on the list `getRecentAssessments` returns. That list is newest first (lib/useHealthStorage.ts:183-184), so the page keeps the oldest seven of up to thirty days. | eight assessments dated "8" down to "1", newest first: the week is "7".."1" and today's "8" is missing | the newest seven, `slice(0, 7)` | not executed | Dashboard.WeeklyAsWritten, Dashboard.CardStatsAsWritten (Dashboard.WeeklyCounterexample, Dashboard.WeeklyAsWrittenMissesNewest) | Dashboard.Weekly, Dashboard.CardStats (Dashboard.WeeklyIsNewest) |
